/**
 * The grammar actions of the expression parser: each production's action
 * builds one AST node from the values of its right-hand side.  The LALR
 * engine that decides which action runs is not modelled; an action's
 * `requires` states what the production guarantees about its inputs.
 */
module Grammar {
  import opened Ast
  import opened Wrappers

  /** subexpression : expression DOT (identifier-expr | multi-select-list | ... | wildcard-value) */
  function SubExpressionRule(left: Node, right: Node): (r: Node)
    ensures r.SubExpression? && Children(r) == [left, right]
    ensures IsRaw(left) && IsRaw(right) ==> IsRaw(r)
    ensures IsWildcardTrigger(r) <==> right.WildcardIndex? || right.WildcardValues?
  {
    SubExpression(left, right)
  }

  /** or-expression : expression OR expression */
  function OrExpressionRule(left: Node, right: Node): (r: Node)
    ensures r.ORExpression? && Children(r) == [left, right]
    ensures IsRaw(left) && IsRaw(right) ==> IsRaw(r)
    ensures !IsWildcardTrigger(r)
  {
    ORExpression(left, right)
  }

  /** pipe-expression : expression PIPE expression */
  function PipeRule(left: Node, right: Node): (r: Node)
    ensures r.Pipe? && Children(r) == [left, right]
    ensures IsRaw(left) && IsRaw(right) ==> IsRaw(r)
    ensures !IsWildcardTrigger(r)
  {
    Pipe(left, right)
  }

  /**
   * index-expression : expression bracket-spec | bracket-spec.
   * With a left operand the action builds a two-child SubExpression node;
   * a bare bracket-spec is passed through as the node itself.
   */
  function IndexExpressionRule(left: Option<Node>, spec: Node): (r: Node)
    ensures left.Some? ==> r.SubExpression? && Children(r) == [left.value, spec]
    ensures left.None? ==> r == spec
    ensures (left.Some? ==> IsRaw(left.value)) && IsRaw(spec) ==> IsRaw(r)
    ensures left.Some? ==> (IsWildcardTrigger(r) <==> spec.WildcardIndex? || spec.WildcardValues?)
  {
    match left
    case Some(l) => SubExpression(l, spec)
    case None => spec
  }

  /** wildcard-value : STAR */
  function StarRule(): (r: Node)
    ensures Children(r) == [] && IsRaw(r)
    ensures forall left :: IsWildcardTrigger(SubExpressionRule(left, r))
  {
    WildcardValues
  }

  /** multi-select-list : LBRACKET expressions RBRACKET */
  function MultiSelectListRule(elements: seq<Node>): (r: Node)
    ensures r.MultiFieldList? && Children(r) == elements
    ensures (forall e | e in elements :: IsRaw(e)) ==> IsRaw(r)
  {
    MultiFieldList(elements)
  }

  /** multi-select-hash : LBRACE keyval-exprs RBRACE */
  function MultiSelectHashRule(pairs: seq<Node>): (r: Node)
    ensures r.MultiFieldDict? && Children(r) == pairs
    ensures (forall p | p in pairs :: IsRaw(p)) ==> IsRaw(r)
  {
    MultiFieldDict(pairs)
  }

  /** keyval-expr : identifier COLON expression */
  function KeyValExprRule(key: string, value: Node): (r: Node)
    ensures r.KeyValPair? && r.keyName == key && Children(r) == [value]
    ensures IsRaw(value) ==> IsRaw(r)
  {
    KeyValPair(key, value)
  }

  /** literal-expression : LITERAL */
  function LiteralRule(value: Json): (r: Node)
    ensures r.Literal? && r.literal == value && Children(r) == [] && IsRaw(r)
  {
    Literal(value)
  }

  /** identifier-expr : identifier */
  function IdentifierExprRule(name: string): (r: Node)
    ensures r.Field? && r.name == name && Children(r) == [] && IsRaw(r)
  {
    Field(name)
  }

  /**
   * bracket-spec : LBRACKET STAR RBRACKET | LBRACKET NUMBER RBRACKET | LBRACKET RBRACKET.
   * `rhs` holds the token values of the right-hand side, in order.
   */
  function BracketSpecRule(rhs: seq<TokenValue>): (r: Node)
    requires |rhs| == 2 || (|rhs| == 3 && (rhs[1] == Text("*") || rhs[1].Number?))
    ensures r.ListElements? <==> |rhs| == 2
    ensures r.WildcardIndex? <==> |rhs| == 3 && rhs[1] == Text("*")
    ensures r.Index? <==> |rhs| == 3 && rhs[1].Number?
    ensures r.Index? ==> r.index == rhs[1].number
    ensures Children(r) == [] && IsRaw(r)
  {
    if |rhs| == 2 then ListElements
    else if rhs[1] == Text("*") then WildcardIndex
    else Index(rhs[1].number)
  }

  /** The right-hand side a bracket specifier leaf is parsed from: the inverse of BracketSpecRule. */
  function BracketTokens(spec: Node): Option<seq<TokenValue>>
  {
    match spec
    case ListElements => Some([Text("["), Text("]")])
    case WildcardIndex => Some([Text("["), Text("*"), Text("]")])
    case Index(n) => Some([Text("["), Number(n), Text("]")])
    case _ => None
  }

  /** Reading a bracket specifier back recovers the brackets it was built from. */
  lemma BracketSpecRoundTrip(rhs: seq<TokenValue>)
    requires |rhs| == 2 || (|rhs| == 3 && (rhs[1] == Text("*") || rhs[1].Number?))
    requires rhs[0] == Text("[") && rhs[|rhs| - 1] == Text("]")
    ensures BracketTokens(BracketSpecRule(rhs)) == Some(rhs)
  {
    if |rhs| == 2 {
      assert rhs == [Text("["), Text("]")];
    } else if rhs[1] == Text("*") {
      assert rhs == [Text("["), Text("*"), Text("]")];
    } else {
      assert rhs == [Text("["), Number(rhs[1].number), Text("]")];
    }
  }

  /** bracket-spec : FILTER filter-expression RBRACKET */
  function BracketSpecFilterRule(comparison: Node): (r: Node)
    ensures r.FilterExpression? && Children(r) == [comparison]
    ensures IsRaw(comparison) ==> IsRaw(r)
  {
    FilterExpression(comparison)
  }

  /** The comparator token map: one comparison node class per symbol. */
  const OpMap: map<string, Comparator> := map[
    "<" := OPLessThan,
    "<=" := OPLessThanEquals,
    "==" := OPEquals,
    ">" := OPGreaterThan,
    ">=" := OPGreaterThanEquals,
    "!=" := OPNotEquals
  ]

  /** comparator : LT | LTE | GT | GTE | EQ | NE */
  function ComparatorRule(symbol: string): (op: Comparator)
    requires symbol in OpMap
    ensures symbol == "<" <==> op == OPLessThan
    ensures symbol == "<=" <==> op == OPLessThanEquals
    ensures symbol == "==" <==> op == OPEquals
    ensures symbol == ">" <==> op == OPGreaterThan
    ensures symbol == ">=" <==> op == OPGreaterThanEquals
    ensures symbol == "!=" <==> op == OPNotEquals
  {
    OpMap[symbol]
  }

  /** The symbol of a comparator, the inverse of the comparator map. */
  function Symbol(op: Comparator): string
  {
    match op
    case OPLessThan => "<"
    case OPLessThanEquals => "<="
    case OPEquals => "=="
    case OPGreaterThan => ">"
    case OPGreaterThanEquals => ">="
    case OPNotEquals => "!="
  }

  /** The map has exactly the six comparator symbols and no two of them share a class. */
  lemma ComparatorMapBijective()
    ensures |OpMap| == 6
    ensures forall s | s in OpMap :: Symbol(OpMap[s]) == s
    ensures forall op: Comparator :: Symbol(op) in OpMap && OpMap[Symbol(op)] == op
    ensures forall s, t | s in OpMap && t in OpMap && s != t :: OpMap[s] != OpMap[t]
  {
    var symbols := {"<", "<=", "==", ">", ">=", "!="};
    assert OpMap.Keys == symbols;
    assert |symbols| == 6 by {
      assert symbols == {"<"} + {"<="} + {"=="} + {">"} + {">="} + {"!="};
    }
    forall s | s in OpMap
      ensures Symbol(OpMap[s]) == s
    {
      assert s in symbols;
    }
    forall op: Comparator
      ensures Symbol(op) in OpMap && OpMap[Symbol(op)] == op
    {
      match op
      case OPLessThan =>
      case OPLessThanEquals =>
      case OPEquals =>
      case OPGreaterThan =>
      case OPGreaterThanEquals =>
      case OPNotEquals =>
    }
  }

  /** filter-expression : expression comparator expression */
  function FilterExpressionRule(left: Node, op: Comparator, right: Node): (r: Node)
    ensures r.Comparison? && r.op == op && Children(r) == [left, right]
    ensures IsRaw(left) && IsRaw(right) ==> IsRaw(r)
  {
    Comparison(op, left, right)
  }

  /** A whole filter bracket `[? left symbol right ]`, as the three actions build it. */
  lemma FilterBracket(left: Node, symbol: string, right: Node)
    requires symbol in OpMap
    ensures var f := BracketSpecFilterRule(FilterExpressionRule(left, ComparatorRule(symbol), right));
      f == FilterExpression(Comparison(OpMap[symbol], left, right)) && Symbol(f.comparison.op) == symbol
  {
    ComparatorMapBijective();
  }

  /** The arity contract of a function, looked up in the function-signature table. */
  datatype Signature = Signature(arity: nat, variadic: bool)

  /**
   * function-expression : UNQUOTED_IDENTIFIER LPAREN function-args RPAREN
   *                     | UNQUOTED_IDENTIFIER LPAREN RPAREN.
   * `args` is None for the empty argument list; `table` is the
   * function-signature table, which this model does not define.
   */
  function FunctionExpressionRule(name: string, args: Option<seq<Node>>, table: string -> Signature)
    : (r: Result<Node, Error>)
    ensures var given := if args.Some? then args.value else [];
      var call := FunctionExpression(name, given);
      var sig := table(name);
      && (sig.variadic && |given| < sig.arity ==> r == Failure(VariadictArityError(call)))
      && (!sig.variadic && |given| != sig.arity ==> r == Failure(ArityError(call)))
      && (sig.variadic && |given| >= sig.arity ==> r == Success(call))
      && (!sig.variadic && |given| == sig.arity ==> r == Success(call))
  {
    var given := if args.Some? then args.value else [];
    var call := FunctionExpression(name, given);
    var sig := table(name);
    if sig.variadic then
      if |given| < sig.arity then Failure(VariadictArityError(call)) else Success(call)
    else if sig.arity != |given| then Failure(ArityError(call))
    else Success(call)
  }

  /** Arity is checked at parse time: a fixed-arity-2 function rejects 1 and 3 arguments. */
  lemma FixedArityRejects(name: string, a: Node, b: Node, c: Node, table: string -> Signature)
    requires table(name) == Signature(2, false)
    ensures FunctionExpressionRule(name, Some([a]), table).Failure?
    ensures FunctionExpressionRule(name, Some([a]), table).error.ArityError?
    ensures FunctionExpressionRule(name, Some([a, b, c]), table).error == ArityError(FunctionExpression(name, [a, b, c]))
    ensures FunctionExpressionRule(name, Some([a, b]), table) == Success(FunctionExpression(name, [a, b]))
  {
  }

  /** A variadic function with minimum 1 rejects the empty call `f()`, whose argument list is empty. */
  lemma VariadicMinimumRejects(name: string, table: string -> Signature)
    requires table(name) == Signature(1, true)
    ensures FunctionExpressionRule(name, None, table) == Failure(VariadictArityError(FunctionExpression(name, [])))
  {
  }

  /** The three forms a function argument can take. */
  datatype ArgumentForm =
    | PlainArgument(expression: Node)     // function-arg : expression
    | CurrentArgument                     // function-arg : CURRENT ('@')
    | ReferenceArgument(referenced: Node) // function-arg : EXPREF expression ('&')

  /** function-arg : expression | CURRENT | EXPREF expression */
  function FunctionArgRule(form: ArgumentForm): (r: Node)
    ensures form.ReferenceArgument? ==> r == ExpressionReference(form.referenced)
    ensures form.CurrentArgument? ==> r == CurrentNode
    ensures form.PlainArgument? ==> r == form.expression
    ensures ((form.PlainArgument? ==> IsRaw(form.expression))
      && (form.ReferenceArgument? ==> IsRaw(form.referenced))) ==> IsRaw(r)
  {
    match form
    case ReferenceArgument(e) => ExpressionReference(e)
    case CurrentArgument => CurrentNode
    case PlainArgument(e) => e
  }

  /**
   * p_error: an offending token gives a syntax error carrying its position,
   * value and type; running out of tokens gives the incomplete-expression error.
   */
  function ErrorRule(offending: Option<Token>): (e: Error)
    ensures e.IncompleteExpressionError? <==> offending.None?
    ensures offending.Some? ==> e == ParseError(offending.value.lexpos, offending.value.value, offending.value.tokenType)
  {
    match offending
    case Some(t) => ParseError(t.lexpos, t.value, t.tokenType)
    case None => IncompleteExpressionError
  }

  /**
   * The in-place list built by the three left-recursive accumulators
   * (keyval-exprs, expressions, function-args).
   */
  class NodeList {
    var items: seq<Node>

    /** The base case, `xs : x`: a one-element list. */
    constructor Singleton(first: Node)
      ensures items == [first]
    {
      items := [first];
    }

    /** The step, `xs : xs COMMA x`: `x` is appended to the list of `xs`. */
    method Append(next: Node)
      modifies this
      ensures items == old(items) + [next]
      ensures |items| == |old(items)| + 1 && items[|items| - 1] == next
    {
      items := items + [next];
    }
  }

  /**
   * The reductions the engine performs for a comma-separated run
   * `x0, x1, ..., xn`: the base action on x0, then one step action per
   * further element.  The resulting list is the run in source order.
   */
  method ReduceList(run: seq<Node>) returns (list: NodeList)
    requires |run| > 0
    ensures fresh(list) && list.items == run
  {
    list := new NodeList.Singleton(run[0]);
    var i := 1;
    while i < |run|
      invariant 1 <= i <= |run|
      invariant list.items == run[..i]
    {
      list.Append(run[i]);
      assert run[..i + 1] == run[..i] + [run[i]];
      i := i + 1;
    }
  }
}
