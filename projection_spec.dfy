/**
 * The state the projection transform works on, and the meaning of each of
 * its steps as a function of that state.
 *
 * Nodes live in an arena: node `n` has kind `kinds[n]` and child slots
 * `children[n]`; a node created during the transform is appended at the end.
 * `parents` is the dictionary from a node to the (parent, slot) pair it was
 * recorded under.  The imperative transform (module Transform) is proved to
 * compute exactly these functions.
 */
module ProjectionSpec {
  import Ast

  /** The node classes; VirtualParent and Sentinel stand for the transform's two helper objects. */
  datatype Kind =
    | VirtualParent
    | Sentinel
    | Field(name: string)
    | SubExpression
    | IndexExpression
    | ORExpression
    | Pipe
    | MultiFieldList
    | MultiFieldDict
    | KeyValPair(keyName: string)
    | FunctionExpression(name: string)
    | Literal(literal: Ast.Json)
    | WildcardValues
    | WildcardIndex
    | ListElements
    | Index(index: int)
    | FilterExpression
    | Comparison(op: Ast.Comparator)
    | ExpressionReference
    | CurrentNode
    | Identity
    | Projection
    | ValueProjection

  /** The node classes that stop the upward walk: a projection never extends past one. */
  predicate IsBoundary(k: Kind)
  {
    k.VirtualParent? || k.ORExpression? || k.Pipe? || k.MultiFieldList? || k.MultiFieldDict?
    || k.KeyValPair? || k.FunctionExpression? || k.Projection? || k.ValueProjection?
  }

  datatype State = State(kinds: seq<Kind>, children: seq<seq<nat>>, parents: map<nat, (nat, nat)>)

  /** Every child slot names a node of the arena. */
  predicate Closed(s: State)
  {
    && |s.kinds| == |s.children|
    && forall y, j | 0 <= y < |s.children| && 0 <= j < |s.children[y]| :: s.children[y][j] < |s.kinds|
  }

  /**
   * Every recorded (parent, slot) pair names an existing slot, and a recorded
   * parent that is not a boundary was created after the node and is itself
   * recorded: the chain of recorded parents climbs and ends at a boundary.
   */
  predicate ParentsSound(s: State)
    requires Closed(s)
  {
    forall x | x in s.parents ::
      && x < |s.kinds|
      && s.parents[x].0 < |s.kinds|
      && s.parents[x].1 < |s.children[s.parents[x].0]|
      && (IsBoundary(s.kinds[s.parents[x].0]) || (x < s.parents[x].0 && s.parents[x].0 in s.parents))
  }

  predicate Sound(s: State)
  {
    Closed(s) && ParentsSound(s)
  }

  /** A two-child sub/index node whose slot 1 holds a wildcard. */
  predicate Triggers(s: State, n: nat)
    requires Closed(s) && n < |s.kinds|
  {
    && (s.kinds[n].SubExpression? || s.kinds[n].IndexExpression?)
    && |s.children[n]| == 2
    && (s.kinds[s.children[n][1]].WildcardIndex? || s.kinds[s.children[n][1]].WildcardValues?)
  }

  /** Allocate a node of kind `k` with the given children; it gets the next free index. */
  function NewNode(s: State, k: Kind, cs: seq<nat>): (r: State)
    requires Closed(s) && forall j | 0 <= j < |cs| :: cs[j] < |s.kinds|
    ensures Closed(r) && r.parents == s.parents
    ensures |r.kinds| == |s.kinds| + 1 && r.kinds[|s.kinds|] == k && r.children[|s.kinds|] == cs
  {
    State(s.kinds + [k], s.children + [cs], s.parents)
  }

  lemma NewNodeSound(s: State, k: Kind, cs: seq<nat>)
    requires Sound(s) && forall j | 0 <= j < |cs| :: cs[j] < |s.kinds|
    ensures Sound(NewNode(s, k, cs))
  {
    var r := NewNode(s, k, cs);
    forall x | x in r.parents
      ensures r.kinds[r.parents[x].0] == s.kinds[s.parents[x].0]
      ensures |r.children[r.parents[x].0]| == |s.children[s.parents[x].0]|
    {
    }
  }

  /** Overwrite child slot `j` of node `y` with `v`. */
  function SetSlot(s: State, y: nat, j: nat, v: nat): (r: State)
    requires Closed(s) && y < |s.kinds| && j < |s.children[y]| && v < |s.kinds|
    ensures Closed(r) && r.kinds == s.kinds && r.parents == s.parents
    ensures |r.children| == |s.children| && |r.children[y]| == |s.children[y]| && r.children[y][j] == v
  {
    var row: seq<nat> := s.children[y][j := v];
    s.(children := s.children[y := row])
  }

  lemma SetSlotSound(s: State, y: nat, j: nat, v: nat)
    requires Sound(s) && y < |s.kinds| && j < |s.children[y]| && v < |s.kinds|
    ensures Sound(SetSlot(s, y, j, v))
  {
    var r := SetSlot(s, y, j, v);
    forall x | x in r.parents
      ensures |r.children[r.parents[x].0]| == |s.children[s.parents[x].0]|
    {
    }
  }

  /**
   * The walk of the transform: from `x`, climb through recorded parents until
   * the recorded parent is a boundary; the node reached is the result.
   */
  function ScopeTop(s: State, x: nat): (top: nat)
    requires Sound(s) && x in s.parents
    ensures top in s.parents && x <= top < |s.kinds|
    ensures IsBoundary(s.kinds[s.parents[top].0])
    ensures top == x <==> IsBoundary(s.kinds[s.parents[x].0])
    decreases |s.kinds| - x
  {
    var p := s.parents[x].0;
    if IsBoundary(s.kinds[p]) then x else ScopeTop(s, p)
  }

  /** Lines 104-108: when `w` sits in slot 0 of its parent, that slot gets a fresh Identity node. */
  function Detach(s: State, w: nat): (r: State)
    requires Sound(s) && w in s.parents
    ensures Sound(r) && r.parents == s.parents
  {
    if s.parents[w].1 == 0 then
      var s0 := NewNode(s, Identity, []);
      NewNodeSound(s, Identity, []);
      SetSlotSound(s0, s.parents[w].0, 0, |s.kinds|);
      SetSlot(s0, s.parents[w].0, 0, |s.kinds|)
    else s
  }

  /**
   * Lines 121-132: build the projection of `left` and the continuation from
   * `top` and write it into `top`'s recorded slot; `right` is re-recorded
   * under the projection.
   */
  function Splice(s: State, w: nat, top: nat, projectionKind: Kind, left: nat): (r: State)
    requires Closed(s) && top in s.parents && top < |s.kinds| && left < |s.kinds|
    requires s.parents[top].0 < |s.kinds| && s.parents[top].1 < |s.children[s.parents[top].0]|
  {
    var s2 := if top == w then NewNode(s, Identity, []) else s;
    var right := if top == w then |s.kinds| else top;
    var projection := |s2.kinds|;
    var s3 := NewNode(s2, projectionKind, [left, right]);
    var s4 := SetSlot(s3, s.parents[top].0, s.parents[top].1, projection);
    s4.(parents := s4.parents[right := (projection, 1)])
  }

  lemma SpliceSound(s: State, w: nat, top: nat, projectionKind: Kind, left: nat)
    requires Sound(s) && top in s.parents && left < |s.kinds|
    requires projectionKind == Projection || projectionKind == ValueProjection
    ensures Sound(Splice(s, w, top, projectionKind, left))
  {
    var r := Splice(s, w, top, projectionKind, left);
    SpliceEffect(s, w, top, projectionKind, left);
    var right := if top == w then |s.kinds| else top;
    var projection := |r.kinds| - 1;
    forall x | x in r.parents
      ensures x < |r.kinds| && r.parents[x].0 < |r.kinds| && r.parents[x].1 < |r.children[r.parents[x].0]|
      ensures IsBoundary(r.kinds[r.parents[x].0]) || (x < r.parents[x].0 && r.parents[x].0 in r.parents)
    {
      if x != right {
        var p := s.parents[x].0;
        assert r.parents[x] == s.parents[x];
        assert r.kinds[p] == s.kinds[p] && |r.children[p]| == |s.children[p]|;
      }
    }
  }

  /**
   * One rewrite of a trigger node `w`: the projection of `w`'s wildcard
   * replaces the highest non-boundary ancestor reached by the walk.
   */
  function Rewrite(s: State, w: nat): (r: State)
    requires Sound(s) && w in s.parents && w < |s.kinds| && Triggers(s, w)
    ensures Sound(r)
  {
    var projectionKind := ProjectionKind(s, w);
    var left := s.children[w][0];
    var s1 := Detach(s, w);
    SpliceSound(s1, w, ScopeTop(s1, w), projectionKind, left);
    Splice(s1, w, ScopeTop(s1, w), projectionKind, left)
  }

  /** The two things the traversal does: record a child under its parent, and examine a node. */
  datatype Event = Record(child: nat, parent: nat, slot: nat) | Examine(node: nat)

  function Step(s: State, e: Event): State
  {
    match e
    case Record(c, p, i) => s.(parents := s.parents[c := (p, i)])
    case Examine(n) =>
      if Sound(s) && n in s.parents && n < |s.kinds| && Triggers(s, n) then Rewrite(s, n) else s
  }

  /** The state after performing `es` in order from `s`. */
  function Run(s: State, es: seq<Event>): State
    decreases |es|
  {
    if es == [] then s else Run(Step(s, es[0]), es[1..])
  }

  lemma {:induction false} RunAppend(s: State, a: seq<Event>, b: seq<Event>)
    ensures Run(s, a + b) == Run(Run(s, a), b)
    decreases |a|
  {
    if a == [] {
      assert a + b == b;
    } else {
      assert (a + b)[0] == a[0] && (a + b)[1..] == a[1..] + b;
      RunAppend(Step(s, a[0]), a[1..], b);
    }
  }

  lemma RunSingle(s: State, e: Event)
    ensures Run(s, [e]) == Step(s, e)
  {
    assert [e][1..] == [];
  }

  /** A raw arena, as the parser allocates it: children are created before their parent. */
  predicate Ordered(orig: seq<seq<nat>>)
  {
    forall y, j | 0 <= y < |orig| && 0 <= j < |orig[y]| :: orig[y][j] < y
  }

  /** Each node occupies at most one child slot: the raw AST is a tree. */
  predicate UniqueSlots(orig: seq<seq<nat>>)
  {
    forall y, j, y', j' | 0 <= y < |orig| && 0 <= j < |orig[y]| && 0 <= y' < |orig| && 0 <= j' < |orig[y']|
      && orig[y][j] == orig[y'][j'] :: y == y' && j == j'
  }

  predicate RawTree(orig: seq<seq<nat>>)
  {
    Ordered(orig) && UniqueSlots(orig)
  }

  /**
   * The events of the traversal of `n`'s subtree in the original tree: for
   * each slot in order, record the child and traverse it; then examine `n`.
   */
  function Events(orig: seq<seq<nat>>, n: nat): seq<Event>
    requires Ordered(orig) && n < |orig|
    decreases n, |orig[n]| + 1
  {
    ChildEvents(orig, n, |orig[n]|) + [Examine(n)]
  }

  /** The events of the first `i` slots of `n`. */
  function ChildEvents(orig: seq<seq<nat>>, n: nat, i: nat): seq<Event>
    requires Ordered(orig) && n < |orig| && i <= |orig[n]|
    decreases n, i
  {
    if i == 0 then []
    else
      var c := orig[n][i - 1];
      ChildEvents(orig, n, i - 1) + [Record(c, n, i - 1)] + Events(orig, c)
  }

  /** Running one more slot: record the child, then run its subtree's events. */
  lemma RunChildEvents(s: State, orig: seq<seq<nat>>, n: nat, i: nat)
    requires Ordered(orig) && n < |orig| && i < |orig[n]|
    ensures Run(s, ChildEvents(orig, n, i + 1)) ==
      Run(Step(Run(s, ChildEvents(orig, n, i)), Record(orig[n][i], n, i)), Events(orig, orig[n][i]))
  {
    var c := orig[n][i];
    RunAppend(s, ChildEvents(orig, n, i), [Record(c, n, i)]);
    RunSingle(Run(s, ChildEvents(orig, n, i)), Record(c, n, i));
    RunAppend(s, ChildEvents(orig, n, i) + [Record(c, n, i)], Events(orig, c));
  }

  /** Running a subtree's events: its children's, then the examination of its root. */
  lemma RunEvents(s: State, orig: seq<seq<nat>>, n: nat)
    requires Ordered(orig) && n < |orig|
    ensures Run(s, Events(orig, n)) == Step(Run(s, ChildEvents(orig, n, |orig[n]|)), Examine(n))
  {
    RunAppend(s, ChildEvents(orig, n, |orig[n]|), [Examine(n)]);
    RunSingle(Run(s, ChildEvents(orig, n, |orig[n]|)), Examine(n));
  }

  /** The nodes of `n`'s subtree in the original tree. */
  function Subtree(orig: seq<seq<nat>>, n: nat): (nodes: set<nat>)
    requires Ordered(orig) && n < |orig|
    ensures n in nodes && forall y | y in nodes :: y <= n
    decreases n, |orig[n]| + 1
  {
    {n} + ChildSubtrees(orig, n, |orig[n]|)
  }

  function ChildSubtrees(orig: seq<seq<nat>>, n: nat, i: nat): (nodes: set<nat>)
    requires Ordered(orig) && n < |orig| && i <= |orig[n]|
    ensures forall y | y in nodes :: y < n
    decreases n, i
  {
    if i == 0 then {} else ChildSubtrees(orig, n, i - 1) + Subtree(orig, orig[n][i - 1])
  }

  /** The nodes examined by `es`. */
  function Examined(es: seq<Event>): set<nat>
  {
    set k | 0 <= k < |es| && es[k].Examine? :: es[k].node
  }

  lemma ExaminedAppend(a: seq<Event>, b: seq<Event>)
    ensures Examined(a + b) == Examined(a) + Examined(b)
  {
    forall y | y in Examined(a + b)
      ensures y in Examined(a) + Examined(b)
    {
      var k :| 0 <= k < |a + b| && (a + b)[k].Examine? && (a + b)[k].node == y;
      if k < |a| {
        assert a[k] == (a + b)[k];
      } else {
        assert b[k - |a|] == (a + b)[k];
      }
    }
    forall y | y in Examined(a) + Examined(b)
      ensures y in Examined(a + b)
    {
      if y in Examined(a) {
        var k :| 0 <= k < |a| && a[k].Examine? && a[k].node == y;
        assert (a + b)[k] == a[k];
      } else {
        var k :| 0 <= k < |b| && b[k].Examine? && b[k].node == y;
        assert (a + b)[|a| + k] == b[k];
      }
    }
  }

  /**
   * The traversal is post-order (lines 89-92): the last event of a subtree's
   * traversal examines its root, every node of the subtree is examined, and
   * the nodes examined before the root are exactly the ones below it.
   */
  lemma {:induction false} EventsPostOrder(orig: seq<seq<nat>>, n: nat)
    requires Ordered(orig) && n < |orig|
    ensures Events(orig, n)[|Events(orig, n)| - 1] == Examine(n)
    ensures Examined(Events(orig, n)) == Subtree(orig, n)
    ensures Examined(ChildEvents(orig, n, |orig[n]|)) == Subtree(orig, n) - {n}
    decreases n, |orig[n]| + 1
  {
    ChildEventsExamined(orig, n, |orig[n]|);
    ExaminedAppend(ChildEvents(orig, n, |orig[n]|), [Examine(n)]);
    assert Examined([Examine(n)]) == {n} by {
      assert [Examine(n)][0] == Examine(n);
    }
  }

  lemma {:induction false} ChildEventsExamined(orig: seq<seq<nat>>, n: nat, i: nat)
    requires Ordered(orig) && n < |orig| && i <= |orig[n]|
    ensures Examined(ChildEvents(orig, n, i)) == ChildSubtrees(orig, n, i)
    decreases n, i
  {
    if i > 0 {
      var c := orig[n][i - 1];
      ChildEventsExamined(orig, n, i - 1);
      EventsPostOrder(orig, c);
      ExaminedAppend(ChildEvents(orig, n, i - 1), [Record(c, n, i - 1)]);
      ExaminedAppend(ChildEvents(orig, n, i - 1) + [Record(c, n, i - 1)], Events(orig, c));
      assert Examined([Record(c, n, i - 1)]) == {};
    } else {
      assert Examined([]) == {};
    }
  }

  /** Without a trigger among the examined nodes, a run changes only the recorded parents. */
  lemma {:induction false} RunWithoutTriggers(s: State, es: seq<Event>)
    requires Closed(s)
    requires forall n | n in Examined(es) && n < |s.kinds| :: !Triggers(s, n)
    ensures Run(s, es).kinds == s.kinds && Run(s, es).children == s.children
    decreases |es|
  {
    if es != [] {
      if es[0].Examine? {
        assert es[0].node in Examined(es);
      }
      var s' := Step(s, es[0]);
      assert s'.kinds == s.kinds && s'.children == s.children;
      forall n | n in Examined(es[1..])
        ensures n in Examined(es)
      {
        var k :| 0 <= k < |es[1..]| && es[1..][k].Examine? && es[1..][k].node == n;
        assert es[k + 1] == es[1..][k];
      }
      RunWithoutTriggers(s', es[1..]);
    }
  }

  // ---------------------------------------------------------------------------
  // Subtrees of the original tree
  // ---------------------------------------------------------------------------

  lemma {:induction false} ChildSubtreesMember(orig: seq<seq<nat>>, n: nat, i: nat, y: nat) returns (j: nat)
    requires Ordered(orig) && n < |orig| && i <= |orig[n]| && y in ChildSubtrees(orig, n, i)
    ensures j < i && y in Subtree(orig, orig[n][j])
    decreases i
  {
    if y in Subtree(orig, orig[n][i - 1]) {
      j := i - 1;
    } else {
      j := ChildSubtreesMember(orig, n, i - 1, y);
    }
  }

  lemma {:induction false} ChildSubtreesInclude(orig: seq<seq<nat>>, n: nat, i: nat, j: nat)
    requires Ordered(orig) && n < |orig| && j < i <= |orig[n]|
    ensures Subtree(orig, orig[n][j]) <= ChildSubtrees(orig, n, i)
    decreases i
  {
    if j < i - 1 {
      ChildSubtreesInclude(orig, n, i - 1, j);
    }
  }

  /** A child's subtree is part of its parent's. */
  lemma ChildSubtree(orig: seq<seq<nat>>, n: nat, j: nat)
    requires Ordered(orig) && n < |orig| && j < |orig[n]|
    ensures Subtree(orig, orig[n][j]) <= Subtree(orig, n)
  {
    ChildSubtreesInclude(orig, n, |orig[n]|, j);
  }

  /** Every node of a subtree was allocated no later than its root. */
  lemma {:induction false} SubtreeBelow(orig: seq<seq<nat>>, n: nat, y: nat)
    requires Ordered(orig) && n < |orig| && y in Subtree(orig, n)
    ensures y <= n
    decreases n
  {
    if y != n {
      var j := ChildSubtreesMember(orig, n, |orig[n]|, y);
      SubtreeBelow(orig, orig[n][j], y);
    }
  }

  /** A node of a subtree other than its root sits in a slot of another node of the subtree. */
  lemma {:induction false} SubtreeUp(orig: seq<seq<nat>>, n: nat, y: nat) returns (z: nat, k: nat)
    requires Ordered(orig) && n < |orig| && y in Subtree(orig, n) && y != n
    ensures z < |orig| && k < |orig[z]| && orig[z][k] == y && z in Subtree(orig, n)
    decreases n
  {
    var j := ChildSubtreesMember(orig, n, |orig[n]|, y);
    var c := orig[n][j];
    if y == c {
      z, k := n, j;
    } else {
      z, k := SubtreeUp(orig, c, y);
      ChildSubtree(orig, n, j);
    }
  }

  lemma {:induction false} SiblingsDisjointAt(orig: seq<seq<nat>>, x: nat, i: nat, j: nat, y: nat)
    requires RawTree(orig) && x < |orig| && i < |orig[x]| && j < |orig[x]| && i != j
    requires y in Subtree(orig, orig[x][i]) && y in Subtree(orig, orig[x][j])
    ensures false
    decreases x - y
  {
    var ci, cj := orig[x][i], orig[x][j];
    SubtreeBelow(orig, ci, y);
    if y == ci {
      var z, k := SubtreeUp(orig, cj, y);
      SubtreeBelow(orig, cj, z);
    } else if y == cj {
      var z, k := SubtreeUp(orig, ci, y);
      SubtreeBelow(orig, ci, z);
    } else {
      var z1, k1 := SubtreeUp(orig, ci, y);
      var z2, k2 := SubtreeUp(orig, cj, y);
      SubtreeBelow(orig, ci, z1);
      SiblingsDisjointAt(orig, x, i, j, z1);
    }
  }

  /** The subtree under slot `i` shares no node with the subtrees under the earlier slots. */
  lemma ChildSubtreesDisjoint(orig: seq<seq<nat>>, n: nat, i: nat)
    requires RawTree(orig) && n < |orig| && i < |orig[n]|
    ensures Subtree(orig, orig[n][i]) !! ChildSubtrees(orig, n, i)
  {
    forall y | y in Subtree(orig, orig[n][i]) && y in ChildSubtrees(orig, n, i)
      ensures false
    {
      var j := ChildSubtreesMember(orig, n, i, y);
      SiblingsDisjointAt(orig, n, i, j, y);
    }
  }

  /** The subtrees under two different slots of one node share no node. */
  lemma SiblingsDisjoint(orig: seq<seq<nat>>, x: nat, i: nat, j: nat)
    requires RawTree(orig) && x < |orig| && i < |orig[x]| && j < |orig[x]| && i != j
    ensures Subtree(orig, orig[x][i]) !! Subtree(orig, orig[x][j])
  {
    forall y | y in Subtree(orig, orig[x][i]) && y in Subtree(orig, orig[x][j])
      ensures false
    {
      SiblingsDisjointAt(orig, x, i, j, y);
    }
  }

  // ---------------------------------------------------------------------------
  // Facts about single steps
  // ---------------------------------------------------------------------------

  /** Recording a child under a later-allocated, recorded parent keeps the state sound. */
  lemma RecordSound(s: State, c: nat, p: nat, i: nat)
    requires Sound(s) && c < p < |s.kinds| && p in s.parents && i < |s.children[p]|
    ensures Sound(Step(s, Record(c, p, i)))
  {
  }

  /** The walk reads only the recorded parents and the kinds of existing nodes. */
  lemma {:induction false} ScopeTopFrame(s: State, t: State, x: nat)
    requires Sound(s) && Sound(t) && x in s.parents && t.parents == s.parents
    requires |s.kinds| <= |t.kinds| && forall y | 0 <= y < |s.kinds| :: t.kinds[y] == s.kinds[y]
    ensures ScopeTop(t, x) == ScopeTop(s, x)
    decreases |s.kinds| - x
  {
    var p := s.parents[x].0;
    if !IsBoundary(s.kinds[p]) {
      ScopeTopFrame(s, t, p);
    }
  }

  /**
   * The right child the rewrite of `w` gives its projection: the node the
   * walk reached, or a fresh Identity node when the walk did not move.
   */
  function Continuation(s: State, w: nat): (c: nat)
    requires Sound(s) && w in s.parents
    ensures w < c
    ensures c < |s.kinds| <==> ScopeTop(s, w) != w
  {
    var top := ScopeTop(s, w);
    if top == w then |s.kinds| + (if s.parents[w].1 == 0 then 1 else 0) else top
  }

  /** The kind of projection a trigger node gives: Projection for `[*]`, ValueProjection for `.*`. */
  function ProjectionKind(s: State, w: nat): Kind
    requires Closed(s) && w < |s.kinds| && Triggers(s, w)
  {
    if s.kinds[s.children[w][1]].WildcardIndex? then Projection else ValueProjection
  }

  /** What Detach changes: at most one fresh Identity node and slot 0 of `w`'s parent. */
  lemma DetachEffect(s: State, w: nat)
    requires Sound(s) && w in s.parents
    ensures var r := Detach(s, w);
      var slot0 := s.parents[w].1 == 0;
      && |r.kinds| == |s.kinds| + (if slot0 then 1 else 0)
      && (forall y | 0 <= y < |s.kinds| :: r.kinds[y] == s.kinds[y] && |r.children[y]| == |s.children[y]|)
      && (slot0 ==> r.kinds[|s.kinds|] == Identity && r.children[|s.kinds|] == []
                    && r.children[s.parents[w].0][0] == |s.kinds|)
      && (forall y, j | 0 <= y < |s.kinds| && 0 <= j < |s.children[y]|
            && !(slot0 && y == s.parents[w].0 && j == 0) :: r.children[y][j] == s.children[y][j])
  {
  }

  /** What Splice changes: the fresh nodes, `top`'s recorded slot and the parent entry of the continuation. */
  lemma SpliceEffect(s: State, w: nat, top: nat, projectionKind: Kind, left: nat)
    requires Closed(s) && top in s.parents && top < |s.kinds| && left < |s.kinds|
    requires s.parents[top].0 < |s.kinds| && s.parents[top].1 < |s.children[s.parents[top].0]|
    ensures var r := Splice(s, w, top, projectionKind, left);
      var right := if top == w then |s.kinds| else top;
      var projection := |r.kinds| - 1;
      && |r.kinds| == |s.kinds| + (if top == w then 1 else 0) + 1
      && (forall y | 0 <= y < |s.kinds| :: r.kinds[y] == s.kinds[y] && |r.children[y]| == |s.children[y]|)
      && (top == w ==> r.kinds[|s.kinds|] == Identity && r.children[|s.kinds|] == [])
      && r.kinds[projection] == projectionKind
      && r.children[projection] == [left, right]
      && r.children[s.parents[top].0][s.parents[top].1] == projection
      && (forall y, j | 0 <= y < |s.kinds| && 0 <= j < |s.children[y]| && (y, j) != s.parents[top] ::
            r.children[y][j] == s.children[y][j])
      && r.parents == s.parents[right := (projection, 1)]
  {
  }

  /** A rewrite is a Detach followed by a Splice at the node the walk reaches before Detach. */
  lemma RewriteUnfold(s: State, w: nat)
    requires Sound(s) && w in s.parents && w < |s.kinds| && Triggers(s, w)
    ensures ScopeTop(Detach(s, w), w) == ScopeTop(s, w)
    ensures Rewrite(s, w) == Splice(Detach(s, w), w, ScopeTop(s, w), ProjectionKind(s, w), s.children[w][0])
  {
    DetachEffect(s, w);
    ScopeTopFrame(s, Detach(s, w), w);
  }

  /**
   * The nodes one rewrite allocates: one Identity for a slot-0 trigger, one
   * Identity when the walk does not move, then the projection of the
   * trigger's left child and the continuation.  Existing nodes keep their
   * kinds and their number of children.
   */
  lemma RewriteNodes(s: State, w: nat)
    requires Sound(s) && w in s.parents && w < |s.kinds| && Triggers(s, w)
    ensures |Rewrite(s, w).kinds| ==
      |s.kinds| + (if s.parents[w].1 == 0 then 1 else 0) + (if ScopeTop(s, w) == w then 1 else 0) + 1
    ensures forall y | 0 <= y < |s.kinds| ::
      Rewrite(s, w).kinds[y] == s.kinds[y] && |Rewrite(s, w).children[y]| == |s.children[y]|
  {
    RewriteUnfold(s, w);
    DetachEffect(s, w);
    SpliceEffect(Detach(s, w), w, ScopeTop(s, w), ProjectionKind(s, w), s.children[w][0]);
  }

  lemma RewriteProjection(s: State, w: nat)
    requires Sound(s) && w in s.parents && w < |s.kinds| && Triggers(s, w)
    ensures |Rewrite(s, w).kinds| > |s.kinds|
    ensures Rewrite(s, w).kinds[|Rewrite(s, w).kinds| - 1] == ProjectionKind(s, w)
    ensures Rewrite(s, w).children[|Rewrite(s, w).kinds| - 1] == [s.children[w][0], Continuation(s, w)]
  {
    RewriteUnfold(s, w);
    var s1 := Detach(s, w);
    DetachEffect(s, w);
    var top := ScopeTop(s, w);
    SpliceEffect(s1, w, top, ProjectionKind(s, w), s.children[w][0]);
    assert Continuation(s, w) == if top == w then |s1.kinds| else top;
  }

  /** A slot-0 trigger leaves a fresh Identity node behind in its old slot. */
  lemma RewritePlaceholder(s: State, w: nat)
    requires Sound(s) && w in s.parents && w < |s.kinds| && Triggers(s, w) && s.parents[w].1 == 0
    ensures |s.kinds| < |Rewrite(s, w).kinds|
    ensures Rewrite(s, w).kinds[|s.kinds|] == Identity && Rewrite(s, w).children[|s.kinds|] == []
  {
    RewriteUnfold(s, w);
    var s1 := Detach(s, w);
    DetachEffect(s, w);
    SpliceEffect(s1, w, ScopeTop(s, w), ProjectionKind(s, w), s.children[w][0]);
    var r := Rewrite(s, w);
    var n := |s.kinds|;
    assert r.kinds[n] == s1.kinds[n] && |r.children[n]| == |s1.children[n]| == 0;
  }

  /** When the walk does not move, the continuation is a fresh Identity node. */
  lemma RewriteIdentityContinuation(s: State, w: nat)
    requires Sound(s) && w in s.parents && w < |s.kinds| && Triggers(s, w) && ScopeTop(s, w) == w
    ensures |s.kinds| <= Continuation(s, w) < |Rewrite(s, w).kinds|
    ensures Rewrite(s, w).kinds[Continuation(s, w)] == Identity && Rewrite(s, w).children[Continuation(s, w)] == []
  {
    RewriteUnfold(s, w);
    var s1 := Detach(s, w);
    DetachEffect(s, w);
    SpliceEffect(s1, w, ScopeTop(s, w), ProjectionKind(s, w), s.children[w][0]);
    assert Continuation(s, w) == |s1.kinds|;
  }

  /**
   * The child slots one rewrite overwrites: the slot the walk's top was
   * recorded in gets the projection, a slot-0 trigger's slot gets the first
   * fresh Identity, and no other slot of an existing node changes.
   */
  lemma RewriteSlots(s: State, w: nat)
    requires Sound(s) && w in s.parents && w < |s.kinds| && Triggers(s, w)
    ensures var p := s.parents[ScopeTop(s, w)];
      Rewrite(s, w).children[p.0][p.1] == |Rewrite(s, w).kinds| - 1
    ensures s.parents[w].1 == 0 && s.parents[w] != s.parents[ScopeTop(s, w)] ==>
      Rewrite(s, w).children[s.parents[w].0][0] == |s.kinds|
    ensures forall y, j | 0 <= y < |s.kinds| && 0 <= j < |s.children[y]|
        && (y, j) != s.parents[ScopeTop(s, w)] && !(s.parents[w].1 == 0 && y == s.parents[w].0 && j == 0) ::
        Rewrite(s, w).children[y][j] == s.children[y][j]
  {
    RewriteUnfold(s, w);
    var s1 := Detach(s, w);
    DetachEffect(s, w);
    var top := ScopeTop(s, w);
    var r := Rewrite(s, w);
    SpliceEffect(s1, w, top, ProjectionKind(s, w), s.children[w][0]);
    var slot0 := s.parents[w].1 == 0;
    forall y, j | 0 <= y < |s.kinds| && 0 <= j < |s.children[y]|
      && (y, j) != s.parents[top] && !(slot0 && y == s.parents[w].0 && j == 0)
      ensures r.children[y][j] == s.children[y][j]
    {
      assert r.children[y][j] == s1.children[y][j];
    }
    if slot0 && s.parents[w] != s.parents[top] {
      assert r.children[s.parents[w].0][0] == s1.children[s.parents[w].0][0];
    }
  }

  /** The one parents entry a rewrite changes: the continuation is re-recorded in slot 1 of the projection. */
  lemma RewriteParents(s: State, w: nat)
    requires Sound(s) && w in s.parents && w < |s.kinds| && Triggers(s, w)
    ensures Rewrite(s, w).parents == s.parents[Continuation(s, w) := (|Rewrite(s, w).kinds| - 1, 1)]
  {
    RewriteUnfold(s, w);
    var s1 := Detach(s, w);
    DetachEffect(s, w);
    var top := ScopeTop(s, w);
    SpliceEffect(s1, w, top, ProjectionKind(s, w), s.children[w][0]);
    assert Continuation(s, w) == if top == w then |s1.kinds| else top;
  }

  /**
   * Scopes nest: once spliced, the continuation is recorded in slot 1 of the
   * new projection, a boundary, so a walk that later starts at or below it
   * stops at it and never climbs into the enclosing scope.
   */
  lemma RewriteNests(s: State, w: nat)
    requires Sound(s) && w in s.parents && w < |s.kinds| && Triggers(s, w)
    ensures Continuation(s, w) in Rewrite(s, w).parents
    ensures ScopeTop(Rewrite(s, w), Continuation(s, w)) == Continuation(s, w)
  {
    RewriteParents(s, w);
    RewriteProjection(s, w);
  }

  /** The effect of rewriting `w` in `s`, as a relation to the result `r`. */
  predicate Rewrites(s: State, w: nat, r: State)
    requires Sound(s) && w in s.parents && w < |s.kinds| && Triggers(s, w)
  {
    && Sound(r) && |s.kinds| < |r.kinds|
    && (forall y | 0 <= y < |s.kinds| :: r.kinds[y] == s.kinds[y] && |r.children[y]| == |s.children[y]|)
    && IsBoundary(r.kinds[|r.kinds| - 1])
    && (forall y, j | 0 <= y < |s.kinds| && 0 <= j < |s.children[y]| && r.children[y][j] != s.children[y][j] ::
          (y, j) == s.parents[ScopeTop(s, w)] || (s.parents[w].1 == 0 && y == s.parents[w].0 && j == 0))
    && r.parents == s.parents[Continuation(s, w) := (|r.kinds| - 1, 1)]
  }

  lemma RewriteRewrites(s: State, w: nat)
    requires Sound(s) && w in s.parents && w < |s.kinds| && Triggers(s, w)
    ensures Rewrites(s, w, Rewrite(s, w))
  {
    RewriteNodes(s, w);
    RewriteProjection(s, w);
    RewriteSlots(s, w);
    RewriteParents(s, w);
  }
}
