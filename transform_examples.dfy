/**
 * Worked examples of the projection transform on concrete raw trees, as the
 * parser builds them (parser.py:99-119): the traversal from the root is
 * followed event by event, and the final arena and the transform's result
 * are stated outright.
 *
 * Each arena lists its nodes by index; the helper objects of the transform
 * get the two last indices (the sentinel is part of the arena the transform
 * is given, the virtual parent is appended by `Initial`).
 */
module TransformExamples {
  import opened ProjectionSpec
  import opened Traversal

  /** One recorded child at the head of an event list. */
  lemma RunRecord(s: State, c: nat, p: nat, i: nat, es: seq<Event>)
    ensures Run(s, [Record(c, p, i)] + es) == Run(s.(parents := s.parents[c := (p, i)]), es)
  {
    assert ([Record(c, p, i)] + es)[1..] == es;
  }

  /** An examined node that is not a sub or index node is left as it is. */
  lemma RunSkip(s: State, n: nat, es: seq<Event>)
    requires n < |s.kinds| && !s.kinds[n].SubExpression? && !s.kinds[n].IndexExpression?
    ensures Run(s, [Examine(n)] + es) == Run(s, es)
  {
    assert ([Examine(n)] + es)[1..] == es;
  }

  /** An examined trigger is rewritten. */
  lemma RunRewrite(s: State, n: nat, es: seq<Event>)
    requires Sound(s) && n in s.parents && n < |s.kinds| && Triggers(s, n)
    ensures Run(s, [Examine(n)] + es) == Run(Rewrite(s, n), es)
  {
    assert ([Examine(n)] + es)[0] == Examine(n) && ([Examine(n)] + es)[1..] == es;
    assert Step(s, Examine(n)) == Rewrite(s, n);
  }

  // ---------------------------------------------------------------------
  // `a[*] | b`: the walk stops at once (the trigger's parent is a Pipe), so
  // the projection gets a fresh Identity on its right.
  // 0 a, 1 [*], 2 sub(0, 1), 3 b, 4 pipe(2, 3), 5 sentinel, 6 virtual parent.
  // ---------------------------------------------------------------------

  const PipeKinds: seq<Kind> := [Field("a"), WildcardIndex, SubExpression, Field("b"), Pipe, Sentinel]
  const PipeChildren: seq<seq<nat>> := [[], [], [0, 1], [], [2, 3], []]
  const PipeArena := State(PipeKinds, PipeChildren, map[])

  lemma PipeRaw()
    ensures Closed(PipeArena) && RawTree(PipeChildren)
  {
    assert PipeChildren[2] == [0, 1] && PipeChildren[4] == [2, 3];
  }

  lemma PipeEvents()
    ensures Ordered(PipeChildren)
    ensures Events(PipeChildren, 4) == [Record(2, 4, 0)] + Events(PipeChildren, 2) + [Record(3, 4, 1), Examine(3), Examine(4)]
    ensures Events(PipeChildren, 2) == [Record(0, 2, 0), Examine(0), Record(1, 2, 1), Examine(1), Examine(2)]
  {
    PipeRaw();
    EventsTwo(PipeChildren, 4);
    EventsTwo(PipeChildren, 2);
    EventsLeaf(PipeChildren, 0);
  }

  /** The start state of the transform: the raw tree, the virtual parent 6, and the root recorded in its slot. */
  predicate PipeInitialShape(i: State)
  {
    Sound(i) && PipeFrame(i) && 4 in i.parents && i.parents[4] == (6, 0)
  }

  /** The kinds and children of the raw pipe, which recording parents leaves alone. */
  predicate PipeFrame(i: State)
  {
    && |i.kinds| == 7
    && i.kinds[0] == Field("a") && i.kinds[1] == WildcardIndex && i.kinds[2] == SubExpression
    && i.kinds[3] == Field("b") && i.kinds[4] == Pipe && i.kinds[6] == VirtualParent
    && |i.children| == 7 && i.children[2] == [0, 1] && i.children[4] == [2, 3] && i.children[6] == [5]
  }

  lemma PipeInitial()
    ensures Closed(PipeArena) && RawTree(PipeChildren)
    ensures PipeInitialShape(Initial(PipeArena, 4, 5))
  {
    PipeRaw();
  }

  /** Recording a child under a recorded later node keeps the shape of the raw pipe. */
  lemma PipeRecord(s: State, c: nat, p: nat, i: nat)
    requires PipeInitialShape(s) && c < p < 7 && p in s.parents && i < |s.children[p]| && c != 4
    ensures PipeInitialShape(s.(parents := s.parents[c := (p, i)]))
  {
    RecordSound(s, c, p, i);
  }

  /** The shape before node 2 is examined: the trigger recorded in slot 0 of the pipe. */
  predicate BeforePipe(m: State)
  {
    PipeInitialShape(m) && 2 in m.parents && m.parents[2] == (4, 0)
  }

  lemma PipeSpine(i: State)
    requires PipeInitialShape(i)
    ensures BeforePipe(i.(parents := i.parents[2 := (4, 0)][0 := (2, 0)][1 := (2, 1)]))
  {
    PipeRecord(i, 2, 4, 0);
    PipeLeaves(i.(parents := i.parents[2 := (4, 0)]));
  }

  lemma PipeLeaves(s4: State)
    requires PipeInitialShape(s4) && 2 in s4.parents && s4.parents[2] == (4, 0)
    ensures BeforePipe(s4.(parents := s4.parents[0 := (2, 0)][1 := (2, 1)]))
  {
    PipeRecord(s4, 0, 2, 0);
    PipeRecord(s4.(parents := s4.parents[0 := (2, 0)]), 1, 2, 1);
  }

  /** The traversal reaches the trigger 2 with 4, 2, 0 and 1 recorded. */
  lemma PipeStart() returns (m: State)
    ensures Closed(PipeArena) && RawTree(PipeChildren)
    ensures BeforePipe(m)
    ensures Final(PipeArena, 4, 5) == Run(Run(m, [Examine(2)]), [Record(3, 4, 1), Examine(3), Examine(4)])
  {
    PipeInitial();
    PipeEvents();
    var i0 := Initial(PipeArena, 4, 5);
    PipeSpine(i0);
    RunThree(i0, Record(2, 4, 0), Events(PipeChildren, 2), [Record(3, 4, 1), Examine(3), Examine(4)]);
    var s4 := Step(i0, Record(2, 4, 0));
    RunLeaves(s4);
    m := s4.(parents := s4.parents[0 := (2, 0)][1 := (2, 1)]);
  }

  /** The shape after the rewrite: 7 placeholder, 8 fresh continuation, 9 projection in the pipe's slot 0. */
  predicate AfterPipe(r: State)
  {
    && Sound(r) && |r.kinds| == 10
    && r.kinds[3] == Field("b") && r.kinds[4] == Pipe && r.kinds[6] == VirtualParent
    && r.kinds[8] == Identity && r.kinds[9] == Projection
    && r.children[4] == [9, 3] && r.children[6] == [5] && r.children[8] == [] && r.children[9] == [0, 8]
    && 4 in r.parents
  }

  /** The pipe stops the walk at once, so the projection of `a` gets a fresh Identity on its right. */
  lemma PipeRewrite(m: State)
    requires BeforePipe(m)
    ensures 2 < |m.kinds| && Triggers(m, 2) && ScopeTop(m, 2) == 2
    ensures AfterPipe(Rewrite(m, 2))
  {
    var r := Rewrite(m, 2);
    RewriteNodes(m, 2);
    RewriteProjection(m, 2);
    RewriteIdentityContinuation(m, 2);
    RewriteSlots(m, 2);
    RewriteParents(m, 2);
    assert r.children[4][0] == 9 && r.children[4][1] == 3;
    assert r.children[6][0] == 5;
  }

  /** The right side of the pipe is recorded and skipped, and the pipe itself examined. */
  lemma PipeRunEnd(r: State)
    requires AfterPipe(r)
    ensures AfterPipe(Run(r, [Record(3, 4, 1), Examine(3), Examine(4)]))
  {
    RecordSound(r, 3, 4, 1);
    RunLeafSkip(r, 3, 4, 1, 4);
  }

  lemma PipeRun()
    ensures Closed(PipeArena) && RawTree(PipeChildren)
    ensures AfterPipe(Final(PipeArena, 4, 5))
  {
    var m := PipeStart();
    PipeRewrite(m);
    RunSingle(m, Examine(2));
    PipeRunEnd(Rewrite(m, 2));
  }

  /**
   * `a[*] | b` becomes `pipe(projection(a, identity), b)`: the pipe 4 keeps
   * its slot 1, its slot 0 holds the projection 9 of `a` and the fresh
   * Identity 8 (the placeholder 7 is no longer reachable), and the pipe is
   * still the result.
   */
  lemma PipeExample()
    ensures Closed(PipeArena) && RawTree(PipeChildren)
    ensures var t := Final(PipeArena, 4, 5);
      && |t.kinds| == 10 && |t.children| == 10
      && t.kinds[4] == Pipe && t.children[4] == [9, 3]
      && t.kinds[9] == Projection && t.children[9] == [0, 8]
      && t.kinds[8] == Identity && t.children[8] == []
      && TransformResult(PipeArena, 4, 5) == 4
  {
    PipeRun();
  }

  // ---------------------------------------------------------------------
  // `a.*` on its own: the walk stops at once (the trigger's parent is the
  // virtual parent), so the value projection replaces the root in the
  // virtual parent's slot and becomes the result.
  // 0 a, 1 *, 2 sub(0, 1), 3 sentinel, 4 virtual parent.
  // ---------------------------------------------------------------------

  const ValuesKinds: seq<Kind> := [Field("a"), WildcardValues, SubExpression, Sentinel]
  const ValuesChildren: seq<seq<nat>> := [[], [], [0, 1], []]
  const ValuesArena := State(ValuesKinds, ValuesChildren, map[])

  lemma ValuesRaw()
    ensures Closed(ValuesArena) && RawTree(ValuesChildren)
  {
    assert ValuesChildren[2] == [0, 1];
  }

  lemma ValuesEvents()
    ensures Ordered(ValuesChildren)
    ensures Events(ValuesChildren, 2) == [Record(0, 2, 0), Examine(0), Record(1, 2, 1), Examine(1), Examine(2)]
  {
    ValuesRaw();
    EventsTwo(ValuesChildren, 2);
    EventsLeaf(ValuesChildren, 0);
  }

  /** The shape before node 2 is examined: the root recorded under the virtual parent. */
  predicate BeforeValues(m: State)
  {
    && Sound(m) && |m.kinds| == 5
    && m.kinds[0] == Field("a") && m.kinds[1] == WildcardValues && m.kinds[2] == SubExpression
    && m.kinds[4] == VirtualParent
    && m.children[2] == [0, 1] && m.children[4] == [3]
    && 2 in m.parents && m.parents[2] == (4, 0)
  }

  lemma ValuesInitial()
    ensures Closed(ValuesArena) && RawTree(ValuesChildren)
    ensures BeforeValues(Initial(ValuesArena, 2, 3))
  {
    ValuesRaw();
  }

  /** Recording a leaf of the trigger keeps the shape. */
  lemma ValuesRecord(s: State, c: nat, i: nat)
    requires BeforeValues(s) && c < 2 && i < 2
    ensures BeforeValues(s.(parents := s.parents[c := (2, i)]))
  {
    RecordSound(s, c, 2, i);
  }

  /** The traversal reaches the trigger 2 with its leaves recorded. */
  lemma ValuesStart() returns (m: State)
    ensures Closed(ValuesArena) && RawTree(ValuesChildren)
    ensures BeforeValues(m)
    ensures Final(ValuesArena, 2, 3) == Run(m, [Examine(2)])
  {
    ValuesInitial();
    ValuesEvents();
    var i0 := Initial(ValuesArena, 2, 3);
    RunLeaves(i0);
    ValuesRecord(i0, 0, 0);
    ValuesRecord(i0.(parents := i0.parents[0 := (2, 0)]), 1, 1);
    m := i0.(parents := i0.parents[0 := (2, 0)][1 := (2, 1)]);
  }

  /** The shape after the rewrite: 5 placeholder, 6 fresh continuation, 7 value projection in the virtual parent's slot. */
  predicate AfterValues(r: State)
  {
    && Sound(r) && |r.kinds| == 8
    && r.kinds[4] == VirtualParent && r.kinds[6] == Identity && r.kinds[7] == ValueProjection
    && r.children[4] == [7] && r.children[6] == [] && r.children[7] == [0, 6]
  }

  /** The virtual parent stops the walk at once, so the value projection replaces the root. */
  lemma ValuesRewrite(m: State)
    requires BeforeValues(m)
    ensures 2 < |m.kinds| && Triggers(m, 2) && ScopeTop(m, 2) == 2
    ensures AfterValues(Rewrite(m, 2))
  {
    var r := Rewrite(m, 2);
    RewriteNodes(m, 2);
    RewriteProjection(m, 2);
    RewriteIdentityContinuation(m, 2);
    RewriteSlots(m, 2);
    assert r.children[4][0] == 7;
  }

  lemma ValuesRun()
    ensures Closed(ValuesArena) && RawTree(ValuesChildren)
    ensures AfterValues(Final(ValuesArena, 2, 3))
  {
    var m := ValuesStart();
    ValuesRewrite(m);
    RunSingle(m, Examine(2));
  }

  /**
   * `a.*` becomes `value_projection(a, identity)`, written into the virtual
   * parent's slot; the transform returns the new node rather than the old
   * root.
   */
  lemma ValuesExample()
    ensures Closed(ValuesArena) && RawTree(ValuesChildren)
    ensures var t := Final(ValuesArena, 2, 3);
      && |t.kinds| == 8 && |t.children| == 8
      && t.children[4] == [7]
      && t.kinds[7] == ValueProjection && t.children[7] == [0, 6]
      && t.kinds[6] == Identity && t.children[6] == []
      && TransformResult(ValuesArena, 2, 3) == 7
  {
    ValuesRun();
  }

  /** An examined node that is not a trigger is left as it is. */
  lemma RunNoTrigger(s: State, n: nat, es: seq<Event>)
    requires Closed(s) && n < |s.kinds| && !Triggers(s, n)
    ensures Run(s, [Examine(n)] + es) == Run(s, es)
  {
    assert ([Examine(n)] + es)[1..] == es;
  }

  /** A recorded leaf, its examination, then the examination of a node that is not a trigger. */
  lemma RunLeafSkip(s: State, c: nat, p: nat, i: nat, n: nat)
    requires Closed(s) && c < |s.kinds| && n < |s.kinds| && !Triggers(s, n)
    requires !s.kinds[c].SubExpression? && !s.kinds[c].IndexExpression?
    ensures Run(s, [Record(c, p, i), Examine(c), Examine(n)]) == s.(parents := s.parents[c := (p, i)])
  {
    var s1 := s.(parents := s.parents[c := (p, i)]);
    assert [Record(c, p, i), Examine(c), Examine(n)] == [Record(c, p, i)] + [Examine(c), Examine(n)];
    RunRecord(s, c, p, i, [Examine(c), Examine(n)]);
    RunSkip(s1, c, [Examine(n)]);
    RunNoTrigger(s1, n, []);
  }

  /** A recorded leaf, its examination, then the rewrite of a trigger. */
  lemma RunLeafRewrite(s: State, c: nat, p: nat, i: nat, n: nat)
    requires c < |s.kinds| && !s.kinds[c].SubExpression? && !s.kinds[c].IndexExpression?
    requires var s1 := s.(parents := s.parents[c := (p, i)]);
      Sound(s1) && n in s1.parents && n < |s1.kinds| && Triggers(s1, n)
    ensures Run(s, [Record(c, p, i), Examine(c), Examine(n)]) == Rewrite(s.(parents := s.parents[c := (p, i)]), n)
  {
    var s1 := s.(parents := s.parents[c := (p, i)]);
    assert [Record(c, p, i), Examine(c), Examine(n)] == [Record(c, p, i)] + [Examine(c), Examine(n)];
    RunRecord(s, c, p, i, [Examine(c), Examine(n)]);
    RunSkip(s1, c, [Examine(n)]);
    RunRewrite(s1, n, []);
  }

  lemma EventsLeaf(orig: seq<seq<nat>>, n: nat)
    requires Ordered(orig) && n < |orig| && orig[n] == []
    ensures Events(orig, n) == [Examine(n)]
  {
  }

  /** The events of a two-slot node whose slot 1 holds a leaf. */
  lemma EventsTwo(orig: seq<seq<nat>>, n: nat)
    requires Ordered(orig) && n < |orig| && |orig[n]| == 2 && orig[orig[n][1]] == []
    ensures Events(orig, n) == [Record(orig[n][0], n, 0)] + Events(orig, orig[n][0])
      + [Record(orig[n][1], n, 1), Examine(orig[n][1]), Examine(n)]
  {
    var c0, c1 := orig[n][0], orig[n][1];
    assert ChildEvents(orig, n, 1) == [Record(c0, n, 0)] + Events(orig, c0);
    EventsLeaf(orig, c1);
    assert ChildEvents(orig, n, 2) == ChildEvents(orig, n, 1) + [Record(c1, n, 1)] + [Examine(c1)];
  }

  /** A run of one event, a middle stretch and a tail. */
  lemma RunThree(s: State, e: Event, mid: seq<Event>, tail: seq<Event>)
    ensures Run(s, [e] + mid + tail) == Run(Run(Step(s, e), mid), tail)
  {
    RunAppend(s, [e] + mid, tail);
    RunAppend(s, [e], mid);
    RunSingle(s, e);
  }

  // ---------------------------------------------------------------------
  // `a[*].b || c`: the walk climbs from the trigger to `a[*].b` and stops
  // below the or-expression, so the projection's right side is `.b` with an
  // Identity in place of `a[*]`.
  // 0 a, 1 [*], 2 sub(0, 1), 3 b, 4 sub(2, 3), 5 c, 6 or(4, 5), 7 sentinel,
  // 8 virtual parent.
  // ---------------------------------------------------------------------

  const OrKinds: seq<Kind> := [Field("a"), WildcardIndex, SubExpression, Field("b"), SubExpression, Field("c"),
    ORExpression, Sentinel]
  const OrChildren: seq<seq<nat>> := [[], [], [0, 1], [], [2, 3], [], [4, 5], []]
  const OrArena := State(OrKinds, OrChildren, map[])

  lemma OrRaw()
    ensures Closed(OrArena) && RawTree(OrChildren)
  {
    assert OrChildren[2] == [0, 1] && OrChildren[4] == [2, 3] && OrChildren[6] == [4, 5];
  }

  lemma OrEventsBottom()
    ensures Ordered(OrChildren)
    ensures Events(OrChildren, 2) == [Record(0, 2, 0), Examine(0), Record(1, 2, 1), Examine(1), Examine(2)]
  {
    OrRaw();
    EventsTwo(OrChildren, 2);
    EventsLeaf(OrChildren, 0);
  }

  /** Each of the nodes 4 and 6 has its left operand in slot 0 and a leaf in slot 1. */
  lemma OrEvents(n: nat)
    requires n == 4 || n == 6
    ensures Ordered(OrChildren)
    ensures Events(OrChildren, n) == [Record(n - 2, n, 0)] + Events(OrChildren, n - 2)
      + [Record(n - 1, n, 1), Examine(n - 1), Examine(n)]
  {
    OrRaw();
    EventsTwo(OrChildren, n);
  }

  /** The start state of the transform: the raw tree, the virtual parent 8, and the root recorded in its slot. */
  predicate OrInitialShape(i: State)
  {
    Sound(i) && OrFrame(i) && 6 in i.parents && i.parents[6] == (8, 0)
  }

  /** The kinds and children of the raw or-expression, which recording parents leaves alone. */
  predicate OrFrame(i: State)
  {
    && |i.kinds| == 9 && |i.children| == 9
    && i.kinds[0] == Field("a") && i.kinds[1] == WildcardIndex && i.kinds[2] == SubExpression
    && i.kinds[3] == Field("b") && i.kinds[4] == SubExpression && i.kinds[5] == Field("c")
    && i.kinds[6] == ORExpression && i.kinds[8] == VirtualParent
    && i.children[2] == [0, 1] && i.children[4] == [2, 3] && i.children[6] == [4, 5] && i.children[8] == [7]
  }

  lemma OrInitial()
    ensures Closed(OrArena) && RawTree(OrChildren)
    ensures OrInitialShape(Initial(OrArena, 6, 7))
  {
    OrRaw();
  }

  /** The raw tree with 6, 4 and 2 recorded, before node 2 is examined. */
  predicate BeforeOr(m: State)
  {
    && OrInitialShape(m)
    && 2 in m.parents && m.parents[2] == (4, 0) && 4 in m.parents && m.parents[4] == (6, 0)
  }

  /** Recording a child under a recorded later node keeps the shape of the raw or-expression. */
  lemma OrRecord(s: State, c: nat, p: nat, i: nat)
    requires OrInitialShape(s) && c < p < 9 && p in s.parents && i < |s.children[p]| && c != 6
    ensures OrInitialShape(s.(parents := s.parents[c := (p, i)]))
  {
    RecordSound(s, c, p, i);
  }

  /** Recording 4, 2 and the leaves 0, 1 reaches the state before node 2 is examined. */
  lemma OrSpine(i: State)
    requires OrInitialShape(i)
    ensures BeforeOr(i.(parents := i.parents[4 := (6, 0)][2 := (4, 0)][0 := (2, 0)][1 := (2, 1)]))
  {
    OrRecord(i, 4, 6, 0);
    OrUpper(i.(parents := i.parents[4 := (6, 0)]));
  }

  lemma OrUpper(s6: State)
    requires OrInitialShape(s6) && 4 in s6.parents && s6.parents[4] == (6, 0)
    ensures BeforeOr(s6.(parents := s6.parents[2 := (4, 0)][0 := (2, 0)][1 := (2, 1)]))
  {
    OrRecord(s6, 2, 4, 0);
    OrLeaves(s6.(parents := s6.parents[2 := (4, 0)]));
  }

  lemma OrLeaves(s4: State)
    requires OrInitialShape(s4)
    requires 2 in s4.parents && s4.parents[2] == (4, 0) && 4 in s4.parents && s4.parents[4] == (6, 0)
    ensures BeforeOr(s4.(parents := s4.parents[0 := (2, 0)][1 := (2, 1)]))
  {
    OrRecord(s4, 0, 2, 0);
    OrRecord(s4.(parents := s4.parents[0 := (2, 0)]), 1, 2, 1);
  }

  /** The events of node 2's subtree record its two leaves, skip them, and end with the examination of 2. */
  lemma RunLeaves(s: State)
    requires Closed(s) && 2 < |s.kinds| && !s.kinds[0].SubExpression? && !s.kinds[0].IndexExpression?
    requires !s.kinds[1].SubExpression? && !s.kinds[1].IndexExpression?
    ensures Run(s, [Record(0, 2, 0), Examine(0), Record(1, 2, 1), Examine(1), Examine(2)])
      == Run(s.(parents := s.parents[0 := (2, 0)][1 := (2, 1)]), [Examine(2)])
  {
    var a1 := s.(parents := s.parents[0 := (2, 0)]);
    var a2 := a1.(parents := a1.parents[1 := (2, 1)]);
    RunRecord(s, 0, 2, 0, [Examine(0), Record(1, 2, 1), Examine(1), Examine(2)]);
    RunSkip(a1, 0, [Record(1, 2, 1), Examine(1), Examine(2)]);
    RunRecord(a1, 1, 2, 1, [Examine(1), Examine(2)]);
    RunSkip(a2, 1, [Examine(2)]);
  }

  /** The traversal reaches the trigger 2 with 6, 4, 2, 0 and 1 recorded. */
  lemma OrStart() returns (m: State)
    ensures Closed(OrArena) && RawTree(OrChildren)
    ensures BeforeOr(m)
    ensures Final(OrArena, 6, 7) ==
      Run(Run(Run(m, [Examine(2)]), [Record(3, 4, 1), Examine(3), Examine(4)]), [Record(5, 6, 1), Examine(5), Examine(6)])
  {
    OrInitial();
    OrEvents(6);
    OrEvents(4);
    OrEventsBottom();
    var i0 := Initial(OrArena, 6, 7);
    var s6 := Step(i0, Record(4, 6, 0));
    var s4 := Step(s6, Record(2, 4, 0));
    OrSpine(i0);
    RunThree(i0, Record(4, 6, 0), Events(OrChildren, 4), [Record(5, 6, 1), Examine(5), Examine(6)]);
    RunThree(s6, Record(2, 4, 0), Events(OrChildren, 2), [Record(3, 4, 1), Examine(3), Examine(4)]);
    RunLeaves(s4);
    m := s4.(parents := s4.parents[0 := (2, 0)][1 := (2, 1)]);
  }

  /** The shape after the rewrite: 9 placeholder, 10 projection of `a` and the continuation 4. */
  predicate AfterOr(r: State)
  {
    && Sound(r) && |r.kinds| == 11
    && r.kinds[0] == Field("a") && r.kinds[3] == Field("b") && r.kinds[4] == SubExpression
    && r.kinds[5] == Field("c") && r.kinds[6] == ORExpression && r.kinds[9] == Identity && r.kinds[10] == Projection
    && r.children[4] == [9, 3] && r.children[6] == [10, 5] && r.children[8] == [7] && r.children[9] == []
    && r.children[10] == [0, 4]
    && 4 in r.parents && 6 in r.parents
  }

  /**
   * The walk from node 2 climbs to node 4, whose recorded parent is the
   * or-expression: the projection replaces node 4 in the or-expression's
   * slot 0.
   */
  lemma OrRewrite(m: State)
    requires BeforeOr(m)
    ensures 2 < |m.kinds| && Triggers(m, 2) && ScopeTop(m, 2) == 4
    ensures AfterOr(Rewrite(m, 2)) && Run(m, [Examine(2)]) == Rewrite(m, 2)
  {
    OrWalk(m);
    OrAfter(m);
    RunSingle(m, Examine(2));
  }

  /** Node 2 is a trigger and its walk stops at node 4, whose recorded parent is the or-expression. */
  lemma OrWalk(m: State)
    requires BeforeOr(m)
    ensures 2 < |m.kinds| && Triggers(m, 2) && ScopeTop(m, 2) == 4
  {
    assert ScopeTop(m, 4) == 4;
  }

  lemma OrAfter(m: State)
    requires BeforeOr(m) && Triggers(m, 2) && ScopeTop(m, 2) == 4
    ensures AfterOr(Rewrite(m, 2))
  {
    var r := Rewrite(m, 2);
    RewriteNodes(m, 2);
    RewriteProjection(m, 2);
    RewritePlaceholder(m, 2);
    RewriteSlots(m, 2);
    RewriteParents(m, 2);
    assert r.children[4][0] == 9 && r.children[4][1] == 3;
    assert r.children[6][0] == 10 && r.children[6][1] == 5;
    assert r.children[8][0] == 7;
  }

  /** Node 3 is recorded and skipped; node 4, now `sub(identity, b)`, is not a trigger. */
  lemma OrRunB(r: State)
    requires AfterOr(r)
    ensures AfterOr(r.(parents := r.parents[3 := (4, 1)]))
    ensures Run(r, [Record(3, 4, 1), Examine(3), Examine(4)]) == r.(parents := r.parents[3 := (4, 1)])
  {
    RecordSound(r, 3, 4, 1);
    RunLeafSkip(r, 3, 4, 1, 4);
  }

  /** Node 5 is recorded and skipped, and the or-expression is not a trigger. */
  lemma OrRunC(r: State)
    requires AfterOr(r)
    ensures AfterOr(Run(r, [Record(5, 6, 1), Examine(5), Examine(6)]))
  {
    RecordSound(r, 5, 6, 1);
    RunLeafSkip(r, 5, 6, 1, 6);
  }

  /** The rest records 3 and 5 and rewrites nothing. */
  lemma OrRunEnd(r: State)
    requires AfterOr(r)
    ensures AfterOr(Run(Run(r, [Record(3, 4, 1), Examine(3), Examine(4)]), [Record(5, 6, 1), Examine(5), Examine(6)]))
  {
    OrRunB(r);
    OrRunC(r.(parents := r.parents[3 := (4, 1)]));
  }

  lemma OrRun()
    ensures Closed(OrArena) && RawTree(OrChildren)
    ensures AfterOr(Final(OrArena, 6, 7))
  {
    var m := OrStart();
    OrRewrite(m);
    OrRunEnd(Rewrite(m, 2));
  }

  /**
   * `a[*].b || c` becomes `or(projection(a, sub(identity, b)), c)`: the
   * projection 10 replaces `a[*].b` in the or-expression's slot 0, the
   * continuation is the old node 4 whose slot 0 now holds the Identity 9,
   * and the or-expression is still the result.
   */
  lemma OrExample()
    ensures Closed(OrArena) && RawTree(OrChildren)
    ensures var t := Final(OrArena, 6, 7);
      && |t.kinds| == 11 && |t.children| == 11
      && t.kinds[6] == ORExpression && t.children[6] == [10, 5] && t.kinds[5] == Field("c")
      && t.kinds[10] == Projection && t.children[10] == [0, 4] && t.kinds[0] == Field("a")
      && t.kinds[4] == SubExpression && t.children[4] == [9, 3] && t.kinds[3] == Field("b")
      && t.kinds[9] == Identity && t.children[9] == []
      && TransformResult(OrArena, 6, 7) == 6
  {
    OrRun();
  }

  // ---------------------------------------------------------------------
  // `a[*].b[*].c`: the first trigger's walk climbs to the root, so its
  // projection replaces the root; the second trigger's walk climbs to the
  // first projection's right side and stops there, so the second projection
  // is written inside the first one.
  // 0 a, 1 [*], 2 sub(0, 1), 3 b, 4 sub(2, 3), 5 [*], 6 sub(4, 5), 7 c,
  // 8 sub(6, 7), 9 sentinel, 10 virtual parent.
  // ---------------------------------------------------------------------

  const NestKinds: seq<Kind> := [Field("a"), WildcardIndex, SubExpression, Field("b"), SubExpression, WildcardIndex,
    SubExpression, Field("c"), SubExpression, Sentinel]
  const NestChildren: seq<seq<nat>> := [[], [], [0, 1], [], [2, 3], [], [4, 5], [], [6, 7], []]
  const NestArena := State(NestKinds, NestChildren, map[])

  lemma NestRaw()
    ensures Closed(NestArena) && RawTree(NestChildren)
  {
    assert NestChildren[2] == [0, 1] && NestChildren[4] == [2, 3] && NestChildren[6] == [4, 5];
    assert NestChildren[8] == [6, 7];
  }

  lemma NestEventsBottom()
    ensures Ordered(NestChildren)
    ensures Events(NestChildren, 2) == [Record(0, 2, 0), Examine(0), Record(1, 2, 1), Examine(1), Examine(2)]
  {
    NestRaw();
    EventsTwo(NestChildren, 2);
    EventsLeaf(NestChildren, 0);
  }

  /** Each of the nodes 4, 6 and 8 has its left spine in slot 0 and a leaf in slot 1. */
  lemma NestEventsUp(n: nat)
    requires n == 4 || n == 6 || n == 8
    ensures Ordered(NestChildren)
    ensures Events(NestChildren, n) == [Record(n - 2, n, 0)] + Events(NestChildren, n - 2)
      + [Record(n - 1, n, 1), Examine(n - 1), Examine(n)]
  {
    NestRaw();
    EventsTwo(NestChildren, n);
  }

  /** The raw tree with the left spine 8, 6, 4, 2 recorded, before node 2 is examined. */
  predicate BeforeFirst(m: State)
  {
    && Sound(m) && |m.kinds| == 11
    && m.kinds[0] == Field("a") && m.kinds[1] == WildcardIndex && m.kinds[2] == SubExpression
    && m.kinds[3] == Field("b") && m.kinds[4] == SubExpression && m.kinds[5] == WildcardIndex
    && m.kinds[6] == SubExpression && m.kinds[7] == Field("c") && m.kinds[8] == SubExpression
    && m.kinds[10] == VirtualParent
    && m.children[2] == [0, 1] && m.children[4] == [2, 3] && m.children[6] == [4, 5] && m.children[8] == [6, 7]
    && m.children[10] == [9]
    && 2 in m.parents && m.parents[2] == (4, 0) && 4 in m.parents && m.parents[4] == (6, 0)
    && 6 in m.parents && m.parents[6] == (8, 0) && 8 in m.parents && m.parents[8] == (10, 0)
  }

  /** The start state of the transform: the raw tree, the virtual parent 10, and the root recorded in its slot. */
  predicate NestInitialShape(i: State)
  {
    Sound(i) && NestFrame(i) && 8 in i.parents && i.parents[8] == (10, 0)
  }

  /** The kinds and children of the raw nested projection, which recording parents leaves alone. */
  predicate NestFrame(i: State)
  {
    && |i.kinds| == 11 && |i.children| == 11
    && i.kinds[0] == Field("a") && i.kinds[1] == WildcardIndex && i.kinds[2] == SubExpression
    && i.kinds[3] == Field("b") && i.kinds[4] == SubExpression && i.kinds[5] == WildcardIndex
    && i.kinds[6] == SubExpression && i.kinds[7] == Field("c") && i.kinds[8] == SubExpression
    && i.kinds[10] == VirtualParent
    && i.children[2] == [0, 1] && i.children[4] == [2, 3] && i.children[6] == [4, 5] && i.children[8] == [6, 7]
    && i.children[10] == [9]
  }

  lemma NestInitial()
    ensures Closed(NestArena) && RawTree(NestChildren)
    ensures NestInitialShape(Initial(NestArena, 8, 9))
  {
    NestRaw();
  }

  /** Recording a child under a recorded later node keeps the shape of the raw nested tree. */
  lemma NestRecord(s: State, c: nat, p: nat, i: nat)
    requires NestInitialShape(s) && c < p < 11 && p in s.parents && i < |s.children[p]| && c != 8
    ensures NestInitialShape(s.(parents := s.parents[c := (p, i)]))
  {
    RecordSound(s, c, p, i);
  }

  /** Recording the left spine 6, 4, 2 keeps the state sound. */
  lemma NestSpine(i: State)
    requires NestInitialShape(i)
    ensures var s4 := i.(parents := i.parents[6 := (8, 0)][4 := (6, 0)][2 := (4, 0)]);
      && NestInitialShape(s4)
      && 2 in s4.parents && s4.parents[2] == (4, 0) && 4 in s4.parents && s4.parents[4] == (6, 0)
      && 6 in s4.parents && s4.parents[6] == (8, 0)
  {
    NestRecord(i, 6, 8, 0);
    NestSpineLower(i.(parents := i.parents[6 := (8, 0)]));
  }

  lemma NestSpineLower(s8: State)
    requires NestInitialShape(s8) && 6 in s8.parents && s8.parents[6] == (8, 0)
    ensures var s4 := s8.(parents := s8.parents[4 := (6, 0)][2 := (4, 0)]);
      && NestInitialShape(s4)
      && 2 in s4.parents && s4.parents[2] == (4, 0) && 4 in s4.parents && s4.parents[4] == (6, 0)
      && 6 in s4.parents && s4.parents[6] == (8, 0)
  {
    NestRecord(s8, 4, 6, 0);
    NestRecord(s8.(parents := s8.parents[4 := (6, 0)]), 2, 4, 0);
  }

  /** Recording the leaves 0 and 1 of node 2 reaches the state before node 2 is examined. */
  lemma NestLeaves(s4: State)
    requires NestInitialShape(s4)
    requires 2 in s4.parents && s4.parents[2] == (4, 0) && 4 in s4.parents && s4.parents[4] == (6, 0)
    requires 6 in s4.parents && s4.parents[6] == (8, 0)
    ensures BeforeFirst(s4.(parents := s4.parents[0 := (2, 0)][1 := (2, 1)]))
  {
    var a1 := s4.(parents := s4.parents[0 := (2, 0)]);
    NestRecord(s4, 0, 2, 0);
    NestRecord(a1, 1, 2, 1);
  }

  /** The traversal reaches the first trigger with the left spine recorded. */
  lemma NestStart() returns (m: State)
    ensures Closed(NestArena) && RawTree(NestChildren)
    ensures BeforeFirst(m)
    ensures Final(NestArena, 8, 9) ==
      Run(Run(Run(Run(m, [Examine(2)]), [Record(3, 4, 1), Examine(3), Examine(4)]),
        [Record(5, 6, 1), Examine(5), Examine(6)]), [Record(7, 8, 1), Examine(7), Examine(8)])
  {
    NestInitial();
    NestEventsUp(8);
    NestEventsUp(6);
    NestEventsUp(4);
    NestEventsBottom();
    var i0 := Initial(NestArena, 8, 9);
    var s8 := Step(i0, Record(6, 8, 0));
    var s6 := Step(s8, Record(4, 6, 0));
    var s4 := Step(s6, Record(2, 4, 0));
    NestSpine(i0);
    NestLeaves(s4);
    RunThree(i0, Record(6, 8, 0), Events(NestChildren, 6), [Record(7, 8, 1), Examine(7), Examine(8)]);
    RunThree(s8, Record(4, 6, 0), Events(NestChildren, 4), [Record(5, 6, 1), Examine(5), Examine(6)]);
    RunThree(s6, Record(2, 4, 0), Events(NestChildren, 2), [Record(3, 4, 1), Examine(3), Examine(4)]);
    RunLeaves(s4);
    m := s4.(parents := s4.parents[0 := (2, 0)][1 := (2, 1)]);
  }

  /** The shape after the first rewrite: 11 placeholder, 12 projection of `a` and the continuation 8. */
  predicate AfterFirst(r: State)
  {
    && Sound(r) && |r.kinds| == 13
    && r.kinds[0] == Field("a") && r.kinds[3] == Field("b") && r.kinds[4] == SubExpression
    && r.kinds[5] == WildcardIndex && r.kinds[6] == SubExpression && r.kinds[7] == Field("c")
    && r.kinds[8] == SubExpression && r.kinds[11] == Identity && r.kinds[12] == Projection
    && r.children[4] == [11, 3] && r.children[6] == [4, 5] && r.children[8] == [6, 7]
    && r.children[10] == [12] && r.children[11] == [] && r.children[12] == [0, 8]
    && 4 in r.parents && 6 in r.parents && r.parents[6] == (8, 0) && 8 in r.parents && r.parents[8] == (12, 1)
  }

  /**
   * The first walk climbs from node 2 through 4 and 6 to the root 8, whose
   * recorded parent is the virtual parent: the projection replaces the root.
   */
  lemma NestFirst(m: State)
    requires BeforeFirst(m)
    ensures 2 < |m.kinds| && Triggers(m, 2) && ScopeTop(m, 2) == 8
    ensures AfterFirst(Rewrite(m, 2)) && Run(m, [Examine(2)]) == Rewrite(m, 2)
  {
    assert ScopeTop(m, 8) == 8;
    assert ScopeTop(m, 6) == 8;
    assert ScopeTop(m, 4) == 8;
    var r := Rewrite(m, 2);
    RewriteNodes(m, 2);
    RewriteProjection(m, 2);
    RewritePlaceholder(m, 2);
    RewriteSlots(m, 2);
    RewriteParents(m, 2);
    assert r.children[4][0] == 11 && r.children[4][1] == 3;
    assert r.children[10][0] == 12;
    assert r.children[6][0] == 4 && r.children[6][1] == 5;
    assert r.children[8][0] == 6 && r.children[8][1] == 7;
    RunSingle(m, Examine(2));
  }

  /** Node 3 is recorded and skipped; node 4, now `sub(identity, b)`, is not a trigger. */
  lemma NestRunB(r: State)
    requires AfterFirst(r)
    ensures AfterFirst(r.(parents := r.parents[3 := (4, 1)]))
    ensures Run(r, [Record(3, 4, 1), Examine(3), Examine(4)]) == r.(parents := r.parents[3 := (4, 1)])
  {
    RecordSound(r, 3, 4, 1);
    RunLeafSkip(r, 3, 4, 1, 4);
  }

  /** The shape after the second rewrite: 13 placeholder, 14 projection written into slot 1 of the first one. */
  predicate AfterSecond(r: State)
  {
    && Sound(r) && |r.kinds| == 15
    && r.kinds[0] == Field("a") && r.kinds[3] == Field("b") && r.kinds[4] == SubExpression
    && r.kinds[7] == Field("c") && r.kinds[8] == SubExpression && r.kinds[11] == Identity
    && r.kinds[12] == Projection && r.kinds[13] == Identity && r.kinds[14] == Projection
    && r.children[4] == [11, 3] && r.children[8] == [13, 7] && r.children[10] == [12]
    && r.children[11] == [] && r.children[12] == [0, 14] && r.children[13] == [] && r.children[14] == [4, 8]
    && 8 in r.parents
  }

  /**
   * The second walk climbs from node 6 to node 8, which the first rewrite
   * recorded in slot 1 of the projection 12: it stops there, and the new
   * projection goes into that slot.
   */
  lemma NestSecond(m: State)
    requires AfterFirst(m)
    ensures 6 in m.parents && 6 < |m.kinds| && Triggers(m, 6) && ScopeTop(m, 6) == 8
    ensures AfterSecond(Rewrite(m, 6))
  {
    assert ScopeTop(m, 8) == 8;
    assert ScopeTop(m, 6) == 8;
    var r := Rewrite(m, 6);
    RewriteNodes(m, 6);
    RewriteProjection(m, 6);
    RewritePlaceholder(m, 6);
    RewriteSlots(m, 6);
    assert r.children[4][0] == 11 && r.children[4][1] == 3;
    assert r.children[10][0] == 12;
    assert r.children[12][0] == 0 && r.children[12][1] == 14;
    assert r.children[8][0] == 13 && r.children[8][1] == 7;
    RewriteParents(m, 6);
  }

  /** Node 5 is recorded and skipped, then node 6 is rewritten. */
  lemma NestRunC(r: State)
    requires AfterFirst(r)
    ensures AfterFirst(r.(parents := r.parents[5 := (6, 1)]))
    ensures var m := r.(parents := r.parents[5 := (6, 1)]);
      && 6 in m.parents && 6 < |m.kinds| && Triggers(m, 6)
      && Run(r, [Record(5, 6, 1), Examine(5), Examine(6)]) == Rewrite(m, 6)
  {
    var m := r.(parents := r.parents[5 := (6, 1)]);
    RecordSound(r, 5, 6, 1);
    NestSecond(m);
    RunLeafRewrite(r, 5, 6, 1, 6);
  }

  /** Node 7 is recorded and skipped; node 8, now `sub(identity, c)`, is not a trigger. */
  lemma NestRunD(r: State)
    requires AfterSecond(r)
    ensures AfterSecond(Run(r, [Record(7, 8, 1), Examine(7), Examine(8)]))
  {
    RecordSound(r, 7, 8, 1);
    RunLeafSkip(r, 7, 8, 1, 8);
  }

  /** From the first rewrite to the end of the traversal. */
  lemma NestRunTail(a: State)
    requires AfterFirst(a)
    ensures AfterSecond(Run(Run(Run(a, [Record(3, 4, 1), Examine(3), Examine(4)]),
      [Record(5, 6, 1), Examine(5), Examine(6)]), [Record(7, 8, 1), Examine(7), Examine(8)]))
  {
    NestRunB(a);
    var b := a.(parents := a.parents[3 := (4, 1)]);
    NestRunC(b);
    var m := b.(parents := b.parents[5 := (6, 1)]);
    NestSecond(m);
    NestRunD(Rewrite(m, 6));
  }

  /** The whole run ends in the shape AfterSecond. */
  lemma NestRun()
    ensures Closed(NestArena) && RawTree(NestChildren)
    ensures AfterSecond(Final(NestArena, 8, 9))
  {
    var m := NestStart();
    NestFirst(m);
    NestRunTail(Rewrite(m, 2));
  }

  /**
   * `a[*].b[*].c` becomes
   * `projection(a, projection(sub(identity, b), sub(identity, c)))`: the
   * first projection 12 replaces the root and is the result; the second
   * projection 14 sits in its slot 1, so the two scopes nest.
   */
  lemma NestExample()
    ensures Closed(NestArena) && RawTree(NestChildren)
    ensures var t := Final(NestArena, 8, 9);
      && |t.kinds| == 15 && |t.children| == 15
      && t.kinds[12] == Projection && t.children[12] == [0, 14] && t.kinds[0] == Field("a")
      && t.kinds[14] == Projection && t.children[14] == [4, 8]
      && t.kinds[4] == SubExpression && t.children[4] == [11, 3]
      && t.kinds[11] == Identity && t.children[11] == [] && t.kinds[3] == Field("b")
      && t.kinds[8] == SubExpression && t.children[8] == [13, 7]
      && t.kinds[13] == Identity && t.children[13] == [] && t.kinds[7] == Field("c")
      && TransformResult(NestArena, 8, 9) == 12
  {
    NestRun();
  }

  // ---------------------------------------------------------------------
  // A bare `[*]` is the WildcardIndex node itself (parser.py:119), which is
  // not a trigger: the transform leaves it as it is.
  // 0 [*], 1 sentinel, 2 virtual parent.
  // ---------------------------------------------------------------------

  const BareArena := State([WildcardIndex, Sentinel], [[], []], map[])

  lemma BareNoTriggers()
    ensures Closed(BareArena) && RawTree(BareArena.children)
    ensures forall y | y in Subtree(BareArena.children, 0) :: !Triggers(BareArena, y)
  {
    assert Subtree(BareArena.children, 0) == {0};
  }

  lemma BareExample()
    ensures Closed(BareArena) && RawTree(BareArena.children)
    ensures Final(BareArena, 0, 1).kinds == [WildcardIndex, Sentinel, VirtualParent]
    ensures Final(BareArena, 0, 1).children == [[], [], [1]]
    ensures TransformResult(BareArena, 0, 1) == 0
  {
    BareNoTriggers();
    TransformWithoutTriggers(BareArena, 0, 1);
  }
}
