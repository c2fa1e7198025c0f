/**
 * The AST node variants the grammar actions and the projection transform
 * talk about, and the error kinds of the expression-error family.
 */
module Ast {

  /** The six comparison node classes, one per comparator token. */
  datatype Comparator =
    | OPLessThan
    | OPLessThanEquals
    | OPEquals
    | OPGreaterThan
    | OPGreaterThanEquals
    | OPNotEquals

  /** A literal constant as the lexer decodes it. */
  datatype Json =
    | JNull
    | JBool(b: bool)
    | JNumber(n: real)
    | JString(s: string)
    | JArray(items: seq<Json>)
    | JObject(members: seq<(string, Json)>)

  datatype Node =
    | Field(name: string)
    | SubExpression(left: Node, right: Node)
    | IndexExpression(left: Node, right: Node)
    | ORExpression(left: Node, right: Node)
    | Pipe(left: Node, right: Node)
    | MultiFieldList(elements: seq<Node>)
    | MultiFieldDict(pairs: seq<Node>)
    | KeyValPair(keyName: string, value: Node)
    | FunctionExpression(name: string, args: seq<Node>)
    | Literal(literal: Json)
    | WildcardValues
    | WildcardIndex
    | ListElements
    | Index(index: int)
    | FilterExpression(comparison: Node)
    | Comparison(op: Comparator, first: Node, second: Node)
    | ExpressionReference(expression: Node)
    | CurrentNode
    | Identity
    | Projection(left: Node, right: Node)
    | ValueProjection(left: Node, right: Node)

  /** The ordered child slots of a node, as the transform enumerates them. */
  function Children(n: Node): (cs: seq<Node>)
    ensures forall c | c in cs :: c < n
  {
    match n
    case SubExpression(l, r) => [l, r]
    case IndexExpression(l, r) => [l, r]
    case ORExpression(l, r) => [l, r]
    case Pipe(l, r) => [l, r]
    case MultiFieldList(es) => es
    case MultiFieldDict(ps) => ps
    case KeyValPair(_, v) => [v]
    case FunctionExpression(_, args) => args
    case FilterExpression(c) => [c]
    case Comparison(_, a, b) => [a, b]
    case ExpressionReference(e) => [e]
    case Projection(l, r) => [l, r]
    case ValueProjection(l, r) => [l, r]
    case _ => []
  }

  /** A raw tree, as the grammar builds it: no projection node anywhere. */
  predicate IsRaw(n: Node)
  {
    !n.Projection? && !n.ValueProjection? && forall c | c in Children(n) :: IsRaw(c)
  }

  /** A two-child sub/index node whose slot 1 holds a wildcard: what the transform rewrites. */
  predicate IsWildcardTrigger(n: Node)
  {
    (n.SubExpression? || n.IndexExpression?) && (n.right.WildcardIndex? || n.right.WildcardValues?)
  }

  /** The value a token carries: text for punctuation and names, an integer for NUMBER. */
  datatype TokenValue = Text(text: string) | Number(number: int)

  /** A token as the lexer hands it to the parser. */
  datatype Token = Token(tokenType: string, value: TokenValue, lexpos: nat)

  /** The members of the expression-error family. */
  datatype Error =
    | LexerError(lexerPosition: nat, lexerValue: string)
    | ParseError(lexpos: nat, tokenValue: TokenValue, tokenType: string)
    | IncompleteExpressionError
    | ArityError(call: Node)
    | VariadictArityError(call: Node)
}
