# jmespath parser actions, expression cache and projection transform in Dafny

This project models two parts of the Python jmespath library (the ply-based
implementation):

- **The projection transform** (`jmespath/transform.py`,
  `ProjectionTransform`). After parsing, the raw tree is rewritten in place.
  Every two-child sub/index node whose child 1 is a wildcard (`[*]` or `.*`)
  is replaced by a `Projection` or `ValueProjection` node. Its left child is
  the wildcard node's child 0. Its right child is the continuation: the
  highest ancestor reached before a scope boundary, or a fresh `Identity`
  when there is none.
- **The grammar actions** (`Grammar.p_*` in `jmespath/parser.py`) that build
  the raw tree, and **the expression cache** of `Parser`.

Files and modules:

| file | module | contents |
|---|---|---|
| `wrappers.dfy` | `Wrappers` | `Option` and `Result` |
| `ast.dfy` | `Ast` | the AST node classes, comparators, tokens and the error family |
| `grammar.dfy` | `Grammar` | one function per grammar action; the in-place list accumulator class `NodeList` |
| `parser_cache.dfy` | `ParserCache` | class `Parser`, holding the class-level cache |
| `projection_spec.dfy` | `ProjectionSpec` | the node arena the transform rewrites, and the meaning of each step as a function |
| `traversal.dfy` | `Traversal` | the whole traversal as a fold over an event list, and the invariants it keeps |
| `transform.dfy` | `Transform` | class `ProjectionTransform`: the imperative transform, proved to compute the functions of the two modules above |
| `transform_examples.dfy` | `TransformExamples` | the transform run on concrete raw trees |
| `nesting.dfy` | `Nesting` | why projection scopes nest: the continuation of a rewrite stops every later walk that reaches it |
| `flatten.dfy` | `Flatten` | the parser's tree laid out as the transform's arena, and the agreement of the two trigger tests |

How the transform is modelled:

- **The arena.** Python objects are compared by identity, so nodes live in
  an arena. Node `n` has `kinds[n]` and child slots `children[n]`, and nodes
  created during the transform are appended. The sentinel object
  (transform.py:64) is the arena node after the parser's nodes. The virtual
  parent (transform.py:67-70) is appended by `Transform`, and its slot 0
  initially holds the sentinel.
- **Events.** `_transform` is recursive and works by side effect. Its
  meaning is `Run(s, Events(orig, root))`. `Events` is the post-order list of
  `Record(child, node, slot)` and `Examine(node)` events computed from the
  original child lists. `Run` folds `Step` over that list, and `Step` of an
  `Examine` of a trigger is `Rewrite`.
- **From the parser to the arena.** `Flatten.Arena` lays a tree the
  grammar actions built out as an arena, children before parents, followed
  by the sentinel. The result is a raw tree in the transform's sense, and
  reading it back gives the parsed tree. `Flatten.ArenaTriggers` shows
  that the transform's trigger test on the arena and `Ast.IsWildcardTrigger`
  on the tree agree node by node.
- **Proof.** `Visit` and `VisitChild` are proved to perform exactly that fold.
  This rests on a framing argument: a rewrite only writes slots inside the
  visited subtree, slots of nodes on the recursion stack (in their recorded
  slot), or slots of fresh nodes. So the slot the loop of line 89 reads next
  still holds the original child.

## Model

| member | source | states |
|---|---|---|
| Grammar.SubExpressionRule | jmespath/parser.py:99-106 | `left . right` builds a two-child SubExpression `[left, right]`; raw inputs give a raw node; it is a transform trigger exactly when the right side is a wildcard (`.*` or `[*]`) |
| Grammar.OrExpressionRule | jmespath/parser.py:108-110 | `left \|\| right` builds ORExpression with children `[left, right]`, never a trigger |
| Grammar.PipeRule | jmespath/parser.py:131-133 | `left \| right` builds Pipe with children `[left, right]`, never a trigger |
| Grammar.IndexExpressionRule | jmespath/parser.py:112-119 | with a left operand: a SubExpression `[left, spec]` that triggers exactly when spec is a wildcard; without one: the bracket spec itself, unchanged |
| Grammar.StarRule | jmespath/parser.py:150-152 | `*` is a childless WildcardValues, and `expr.*` is always a trigger |
| Grammar.MultiSelectListRule | jmespath/parser.py:121-124 | `[e1, …]` builds MultiFieldList whose children are the elements in order |
| Grammar.MultiSelectHashRule | jmespath/parser.py:126-129 | `{k: v, …}` builds MultiFieldDict whose children are the pairs in order |
| Grammar.KeyValExprRule | jmespath/parser.py:211-214 | `key: expr` builds KeyValPair carrying the key, with the one child `expr` |
| Grammar.LiteralRule | jmespath/parser.py:135-137 | a literal token builds a childless Literal holding its value |
| Grammar.IdentifierExprRule | jmespath/parser.py:197-199 | an identifier builds a childless Field with that name |
| Grammar.BracketSpecRule | jmespath/parser.py:154-164 | `[]` gives ListElements, `[*]` gives WildcardIndex and `[N]` gives Index(N), each if and only if its form was given |
| Grammar.BracketSpecRoundTrip | jmespath/parser.py:154-164 | reading the built leaf back gives exactly the bracket tokens it came from |
| Grammar.BracketSpecFilterRule | jmespath/parser.py:166-169 | `[? c ]` builds FilterExpression with the one child `c` |
| Grammar.ComparatorRule | jmespath/parser.py:179-195 | each of `< <= == > >= !=` maps to its own comparator, each if and only if that symbol was given |
| Grammar.ComparatorMapBijective | jmespath/parser.py:187-195 | the comparator map (the constant `Grammar.OpMap`, the `op_map` of parser.py:187-194) has six entries, is injective, and is inverted by `Symbol` in both directions |
| Grammar.FilterExpressionRule | jmespath/parser.py:171-177 | `left op right` builds a Comparison carrying `op` with children `[left, right]` |
| Grammar.FilterBracket | jmespath/parser.py:166-195 | the three actions together build `FilterExpression(Comparison(op_map[symbol], left, right))`, and the symbol can be read back |
| Grammar.FunctionExpressionRule | jmespath/parser.py:226-240 | a variadic call with fewer arguments than its arity fails with VariadictArityError; a fixed-arity call with a different count fails with ArityError; otherwise the call node is returned; `f()` has no arguments |
| Grammar.FixedArityRejects | jmespath/parser.py:235-240 | a two-argument function rejects one and three arguments with ArityError and accepts two |
| Grammar.VariadicMinimumRejects | jmespath/parser.py:228-237 | a variadic function with minimum one rejects `f()` with VariadictArityError |
| Grammar.FunctionArgRule | jmespath/parser.py:252-262 | `&e` gives ExpressionReference(e), `@` gives CurrentNode, and any other argument is passed through unchanged |
| Grammar.ErrorRule | jmespath/parser.py:264-268 | an offending token gives ParseError with its position, value and type; end of input, and only end of input, gives IncompleteExpressionError |
| Grammar.NodeList.Singleton | jmespath/parser.py:201-206 | the base case of an accumulator is the one-element list |
| Grammar.NodeList.Append | jmespath/parser.py:207-209 | a step appends the new element at the end, so the length grows by exactly one |
| Grammar.ReduceList | jmespath/parser.py:216-224 | the reductions for `x0, …, xn` produce the list `[x0, …, xn]` in source order |
| ParserCache.Parser.FreshParse | jmespath/parser.py:293-303 | the reference that `Parse` and the cache invariant are measured against: an uncached parse succeeds exactly when the engine does, with a ParsedResult holding the expression and its tree; otherwise it fails with the engine's error |
| ParserCache.Parser.Valid | jmespath/parser.py:275 | the cache invariant: at most `_max_size` (64) entries, each equal to a fresh parse of its key (the bound is restored at parser.py:305-306) |
| ParserCache.Parser.constructor | jmespath/parser.py:271-276 | the cache starts empty and satisfies the cache invariant |
| ParserCache.Parser.Parse | jmespath/parser.py:289-307 | keeps the invariant (at most 64 entries, each equal to a fresh parse) and always returns what a fresh parse returns; a hit or a failure leaves the cache unchanged; a new success is stored; at 64 entries the store is followed by an eviction that leaves 33 entries, all of them entries of the cache after the store |
| ParserCache.Parser.FreeCacheEntries | jmespath/parser.py:323-327 | removes exactly `64 / 2` entries and changes none of the others |
| ParserCache.Parser.Purge | jmespath/parser.py:329-332 | empties the cache |
| ParserCache.SampleExists | jmespath/parser.py:326 | a sample of k distinct keys of the cache exists whenever it has at least k keys |
| ParserCache.DistinctElements | jmespath/parser.py:326-327 | deleting k distinct sampled keys removes k entries |
| ProjectionSpec.IsBoundary | jmespath/transform.py:113-117 | the nine classes that stop the upward walk: the virtual parent, or, pipe, multi-select list and hash, key-value pair, function, projection and value projection |
| ProjectionSpec.Triggers | jmespath/transform.py:92-94 | a node is rewritten when it is a two-child sub/index node whose slot 1 holds a `[*]` or `.*` node |
| ProjectionSpec.ProjectionKind | jmespath/transform.py:95-98 | `[*]` gives Projection and `.*` gives ValueProjection |
| ProjectionSpec.Continuation | jmespath/transform.py:121-125 | the projection's right child lies above the trigger in the arena: the node the walk reached when it moved, and a fresh Identity, exactly when it did not |
| ProjectionSpec.Splice | jmespath/transform.py:121-132 | builds `projection(left, right)`, writes it into the slot the walk's top was recorded in, and records `right` under it (its effects are `SpliceEffect`) |
| ProjectionSpec.Step | jmespath/transform.py:92-132 | a Record event sets `parents[child]`; an Examine event rewrites a trigger and leaves any other node alone |
| ProjectionSpec.Run | jmespath/transform.py:88-91 | the state after performing a list of events in order |
| ProjectionSpec.Events | jmespath/transform.py:88-91 | the events of `_transform(node)`: for each slot in order, record the child and then its subtree's events; then examine the node |
| ProjectionSpec.NewNode | jmespath/transform.py:124-128 | a node construction appends one node of the given kind and children, and keeps the arena closed |
| ProjectionSpec.NewNodeSound | jmespath/transform.py:124-128 | creating a node keeps the parents dictionary sound |
| ProjectionSpec.SetSlot | jmespath/transform.py:129-131 | a slot assignment changes that one slot and keeps the arena closed |
| ProjectionSpec.SetSlotSound | jmespath/transform.py:129-131 | a slot assignment keeps the parents dictionary sound |
| ProjectionSpec.ScopeTop | jmespath/transform.py:111-120 | the upward walk terminates at a recorded node whose recorded parent is a boundary (virtual parent, or, pipe, multi-select list or hash, key-value pair, function, projection); it stays put exactly when the start's parent is already a boundary |
| ProjectionSpec.ScopeTopFrame | jmespath/transform.py:111-120 | the walk's result depends only on the parents dictionary and the kinds of existing nodes |
| ProjectionSpec.Detach | jmespath/transform.py:104-108 | overwriting slot 0 with Identity keeps the state sound and the parents dictionary unchanged |
| ProjectionSpec.DetachEffect | jmespath/transform.py:104-108 | if the trigger is in slot 0 of its parent, that slot now holds a fresh childless Identity; no other slot changes |
| ProjectionSpec.SpliceSound | jmespath/transform.py:121-132 | splicing in the projection keeps the state sound |
| ProjectionSpec.SpliceEffect | jmespath/transform.py:121-132 | the projection `[left, right]` is appended and written into the slot `current` was recorded in; right is a fresh Identity when the walk did not move and `current` otherwise; right is re-recorded as `(projection, 1)`; no other slot changes |
| ProjectionSpec.Rewrite | jmespath/transform.py:92-132 | one rewrite keeps the arena and the parents dictionary sound |
| ProjectionSpec.RewriteUnfold | jmespath/transform.py:102-129 | the walk starts from the trigger after the Identity write and gives the same top as before; the rewrite is that write followed by the splice at the top |
| ProjectionSpec.RewriteNodes | jmespath/transform.py:104-129 | a rewrite appends one node per construction: an Identity for a slot-0 trigger, an Identity for an unmoved walk, and the projection; existing nodes keep their kinds and slot counts |
| ProjectionSpec.RewriteProjection | jmespath/transform.py:92-129 | the new node is Projection for `[*]` and ValueProjection for `.*`, and its children are the trigger's original child 0 and the continuation |
| ProjectionSpec.RewritePlaceholder | jmespath/transform.py:104-108 | a slot-0 trigger leaves a fresh childless Identity node |
| ProjectionSpec.RewriteIdentityContinuation | jmespath/transform.py:121-125 | when the walk did not move, the continuation is a fresh childless Identity, as in `a[*] \| b` |
| ProjectionSpec.RewriteSlots | jmespath/transform.py:104-131 | the projection is in exactly the boundary slot of `current`; a slot-0 trigger's parent slot 0 holds the Identity; every other slot of every existing node is unchanged |
| ProjectionSpec.RewriteParents | jmespath/transform.py:129-132 | the only change to the parents dictionary is the continuation re-recorded as `(projection, 1)` |
| ProjectionSpec.RewriteNests | jmespath/transform.py:111-132 | straight after a rewrite, a walk starting at the continuation stops there, because its parent is the new projection |
| Nesting.RewriteKeepsStop | jmespath/transform.py:104-132 | a later rewrite keeps a node whose recorded parent is a projection in that state |
| Nesting.RunKeepsStop | jmespath/transform.py:88-132 | events that do not record the node again keep it stopping every walk |
| Nesting.EventsRecorded | jmespath/transform.py:88-91 | the events of a node record exactly the nodes strictly below it |
| Nesting.SegmentRecordsBelow | jmespath/transform.py:88-91 | any stretch of a node's events records only nodes with smaller indices than that node |
| Nesting.WalkStops | jmespath/transform.py:111-120 | a walk that passes through a stopping node ends there |
| Nesting.ScopesNest | jmespath/transform.py:111-132 | after a rewrite and any events that do not record its continuation again, every later walk that reaches the continuation stops at it: a later projection is nested inside the earlier one and the two scopes never merge |
| Nesting.ScopesNestInTraversal | jmespath/transform.py:88-132 | inside the events of a node no lower than the continuation, the continuation is never recorded again, so the nesting of `ScopesNest` holds for the rest of that traversal |
| ProjectionSpec.RewriteRewrites | jmespath/transform.py:92-132 | the rewrite meets the relation that collects all the effects above |
| ProjectionSpec.RunAppend | jmespath/transform.py:88-91 | running two event lists in sequence is running their concatenation |
| ProjectionSpec.RunChildEvents | jmespath/transform.py:89-91 | loop iteration i records child i as `(node, i)` and then transforms that child's subtree |
| ProjectionSpec.RunEvents | jmespath/transform.py:88-98 | transforming a node first processes all its slots in order and then examines the node itself (post-order) |
| ProjectionSpec.EventsPostOrder | jmespath/transform.py:88-91 | the events of a node end with its own examination, and they examine exactly the nodes of its subtree |
| ProjectionSpec.RunWithoutTriggers | jmespath/transform.py:92-98 | examining only non-trigger nodes rewrites nothing |
| ProjectionSpec.RecordSound | jmespath/transform.py:90 | recording a child under a later-created parent keeps the parents dictionary sound |
| ProjectionSpec.SiblingsDisjoint | jmespath/transform.py:89-91 | in a parser-built tree the subtrees of two sibling slots share no node |
| Traversal.Final | jmespath/transform.py:74-86 | the whole transform: the events of the root run from the initial state |
| Traversal.Initial | jmespath/transform.py:74-77 | the start state appends the virtual parent with slot 0 holding the sentinel, leaves every parser node as it was, and records the root as `(virtual parent, 0)` |
| Traversal.ScopeTopOnStack | jmespath/transform.py:111-120 | during the traversal, an upward walk from a node being examined stops at that node or at a node on the recursion stack |
| Traversal.EventsKeep | jmespath/transform.py:88-132 | transforming a subtree keeps the state sound and every existing node with its kind and slot count, and writes only slots inside the subtree, recorded stack slots or fresh nodes |
| Traversal.TransformKeeps | jmespath/transform.py:74-91 | the whole transform keeps the state sound and changes no slot of a node outside the root's subtree |
| Traversal.TransformResult | jmespath/transform.py:79-86 | the returned node exists in the final arena and is either the original root or the Projection/ValueProjection that replaced it in the virtual parent's slot |
| Traversal.RunRootSlot | jmespath/transform.py:76-86 | throughout the traversal, the virtual parent's slot 0 holds the sentinel or a projection |
| Traversal.TransformWithoutTriggers | jmespath/transform.py:88-98 | a tree without a wildcard trigger is left untouched and its root is returned |
| Transform.ProjectionTransform.constructor | jmespath/transform.py:64-70 | the arena is the parser's nodes followed by the sentinel; parents is empty |
| Transform.ProjectionTransform.AddNode | jmespath/transform.py:124-128 | allocating a node is NewNode on the state |
| Transform.ProjectionTransform.SetChild | jmespath/transform.py:129-131 | an assignment to `y.children[j]` is SetSlot on the state |
| Transform.ProjectionTransform.FindScope | jmespath/transform.py:111-120 | the `while True` loop returns the top of the walk, a recorded node whose recorded parent is a boundary |
| Transform.ProjectionTransform.DetachNode | jmespath/transform.py:102-108 | the slot-0 write is Detach on the state |
| Transform.ProjectionTransform.SpliceProjection | jmespath/transform.py:121-132 | building and writing the projection is Splice on the state |
| Transform.ProjectionTransform.ExamineNode | jmespath/transform.py:92-132 | examining a node rewrites it exactly when it is a trigger, so the new state is Step on the old |
| Transform.ProjectionTransform.VisitChild | jmespath/transform.py:89-90 | one loop iteration performs the events of that slot |
| Transform.ProjectionTransform.Visit | jmespath/transform.py:88-91 | `_transform(node)` performs exactly `Run(old state, Events(orig, node))` |
| Transform.ProjectionTransform.Transform | jmespath/transform.py:74-86 | the final state is `Final` and the result is `TransformResult`, so every property proved of those holds of the method |
| TransformExamples.PipeExample | jmespath/transform.py:111-128 | `a[*] \| b` becomes `Pipe(Projection(a, Identity), b)`: the pipe stops the walk, the right side is a fresh Identity and the pipe is returned |
| TransformExamples.ValuesExample | jmespath/transform.py:92-132 | `a.*` becomes `ValueProjection(a, Identity)`, which replaces the root through the virtual parent and is returned |
| TransformExamples.OrRewrite | jmespath/transform.py:111-132 | in `a[*].b \|\| c` the walk from the trigger moves up to `a[*].b` and stops under the or-expression, so that node becomes the continuation |
| TransformExamples.OrExample | jmespath/transform.py:74-132 | `a[*].b \|\| c` becomes `Or(Projection(a, Sub(Identity, b)), c)` and the or-expression is returned |
| TransformExamples.NestFirst | jmespath/transform.py:92-132 | in `a[*].b[*].c` the first walk climbs to the root, so the first projection replaces the root with the rest of the chain as its continuation |
| TransformExamples.NestSecond | jmespath/transform.py:111-132 | the second walk stops at the first rewrite's continuation, and the second projection is written into slot 1 of the first |
| TransformExamples.NestExample | jmespath/transform.py:74-132 | `a[*].b[*].c` becomes `Projection(a, Projection(Sub(Identity, b), Sub(Identity, c)))` and the outer projection is returned |
| Flatten.TriggersAgree | jmespath/transform.py:92-94 | an arena node is a trigger exactly when the AST node it stands for is a sub/index expression whose right side is a wildcard |
| Flatten.UnflattenGrows | jmespath/transform.py:74-78 | appending nodes does not change what an existing arena node stands for |
| Flatten.AllocLaysOut | jmespath/transform.py:74-78 | laying out a parsed tree appends its nodes children first, each at a fresh index and in no other node's slot, and reading the root back gives the tree |
| Flatten.AllocChildrenLaysOut | jmespath/transform.py:74-78 | the children are laid out one after another in slot order, at increasing fresh indices |
| Flatten.Arena | jmespath/transform.py:64-78 | the arena for a parsed tree, followed by the sentinel, is a closed raw tree with an empty parents map, and its root reads back as the tree |
| Flatten.ArenaTriggers | jmespath/transform.py:74-94 | in that arena every node, and the root in particular, is a trigger exactly when the parsed node it stands for is a wildcard trigger |
| TransformExamples.BareExample | jmespath/transform.py:83-98 | a bare `[*]` is not a two-child node, so it is returned unchanged |

## Left out

- The ply engine, the lexer and the LALR tables (`_lrtable3.py`) are foreign machinery. Which action runs on which input is not modelled. Each action's `requires` says what its production guarantees, and `ParserCache.Parser.engine` stands for the whole lexer-plus-parser run.
- The precedence tuple (parser.py:77-83) only feeds the table generator. `NE` is missing from it there, and that is not modelled.
- `p_jmespath_single_expr` and `p_jmespath_identifier` (parser.py:85-97, 139-143) only pass their value through. They have no member.
- The function-signature table behind `FunctionExpression.arity` and `variadic` is not part of this model. It is a parameter of `Grammar.FunctionExpressionRule`.
- ParserCache.Parser.FreeCacheEntries: `random.sample` is modelled as an arbitrary choice of distinct keys, which may include the key just inserted. So the contract states which caches may result, not which one does.
- ParserCache.Parser.FreeCacheEntries: the model reads `random.sample(self._cache.keys(), …)` the way Python versions before 3.11 ran it, taking the keys view as the population. From Python 3.11 on, `random.sample` accepts only sequences, so this call would raise TypeError instead of evicting. That failure path is not modelled.
- ParserCache.Parser.Parse: the class-level `_cache` shared by all Parser instances is modelled as the one `cache` field of one object with one parsing engine. In the source, Parser instances built with a different `lexer_definition` or `grammar` (parser.py:273, 278-287) share that cache, so a hit can return a tree another grammar built; "a hit equals a fresh parse" holds only when every instance uses the same engine. Concurrent calls are not modelled; the source has no locking.
- ParserCache.Parser.Parse: a cache hit returns the cached `ParsedResult` object itself (parser.py:290-292), and its `.parsed` tree is a mutable object. The projection transform rewrites such trees in place (transform.py:108, 131). After a cached tree has been transformed, a later hit returns the rewritten tree, not a fresh parse. For example, after `a[*].b` is parsed and transformed, its cached root is `SubExpression(Identity, b)`. The model stores trees as immutable values and runs the transform on a separate arena, so this aliasing is not captured. `Valid` and "a hit equals a fresh parse" hold only while no caller mutates a cached tree.
- JSON literal numbers are modelled as `real` (`Ast.JNumber`). The Python distinction between `int` and `float` is not kept, and neither is a float exponent that overflows to infinity. Literal payloads play no part in the grammar actions' shape properties or in the transform.
- `_parse_expression`, which attaches the expression text to a raised error (parser.py:309-321), is not modelled.
- `ParsedResult.search`, `pretty_print`, `__repr__` and `__eq__` (parser.py:341-355) delegate to an evaluator and an AST module that are not part of this model.
- ProjectionSpec.RewriteNests: states only the state straight after one rewrite. That the continuation keeps stopping walks for the rest of the traversal is `Nesting.ScopesNest` and `Nesting.ScopesNestInTraversal`. They take as hypotheses that the later state is sound and that the later walk reaches the continuation. For `a[*].b[*].c` the whole run is spelled out: `TransformExamples.NestSecond` and `TransformExamples.NestExample` show the second walk stopping at the first continuation.
- Object identity is modelled by arena indices. Every node the parser builds is a distinct arena node, and the transform's inputs must form a tree (`RawTree`). A second transform of an already transformed arena, or a tree that shares a node, is not covered.
- The trigger also requires exactly two children. In the source, every `SubExpression` and `IndexExpression` the parser builds has two.
- Transform nodes are modelled by kind and child list only. A `Field` node's name and similar payloads are carried in `Kind` but play no part in the rewrite.
- There is no "no wildcard pattern remains" theorem. Comparison nodes are not boundaries, so a wildcard inside `[? … ]` escapes the filter's scope. A trigger in slot 1 of a non-boundary node is left in place as a subtree of the continuation.

## Where the code and its documentation differ

The model follows the code in each case below:

- **Bare `[*]`.** The bracket-spec-only index expression is the `WildcardIndex` leaf itself (parser.py:118-119), not a two-child node, so the transform does not rewrite it (transform.py:92-94). It does not become `Projection(Identity, Identity)`. See `TransformExamples.BareExample`.
- **Identity children.** The expected strings in tests/test_transform.py:41-43, 75-83 and 100-103 omit the `(subexpression (identity) …)` that transform.py:108 leaves. For `a[*].b` the code produces `Projection(a, SubExpression(Identity, b))`, as `ProjectionSpec.RewriteSlots` and `ProjectionSpec.RewritePlaceholder` state.
- **Trigger class.** The transform tests for `ast.IndexExpression` (transform.py:92), while the parser builds `ast.SubExpression` for both `expr[*]` and `expr.*` (parser.py:106, 117). The model treats both classes as the index node the test means.
