/**
  The syntax tree of `src/ast.rs`: a program is a sequence of statements, and
  statements and expressions nest through blocks, conditionals, function
  literals and calls. Rust's `Box` indirections disappear: a Dafny datatype is
  already an owned, acyclic value.
 */
module Ast {
  import opened Wrappers
  import opened Operators

  /** Rust's `isize`, taken at its width on a 64-bit target. */
  newtype Isize = x: int | -0x8000_0000_0000_0000 <= x < 0x8000_0000_0000_0000

  /** The root of every tree; the order of `statements` is the order of the source text. */
  datatype Program = Program(statements: seq<Statement>)

  datatype Statement =
    | Let(LetStatement)
    | Return(ReturnStatement)
    | Expression(ExpressionStatement)

  datatype LetStatement = LetStatement(name: IdentifierLiteral, value: Expression)

  /** `returnValue == None` is a bare `return`, distinct from returning `NoneLiteral`. */
  datatype ReturnStatement = ReturnStatement(returnValue: Option<Expression>)

  /** `Terminating` marks an expression written with a trailing separator, `NonTerminating` one without. */
  datatype ExpressionStatement = Terminating(Expression) | NonTerminating(Expression)

  datatype Expression =
    | Identifier(IdentifierLiteral)
    | Int(IntegerLiteral)
    | Boolean(BooleanLiteral)
    | Function(FunctionLiteral)
    | If(IfExpression)
    | Call(CallExpression)
    | Block(BlockExpression)
    | Prefix(PrefixExpression)
    | Infix(InfixExpression)
    | NoneLiteral

  datatype IdentifierLiteral = IdentifierLiteral(value: string)

  datatype IntegerLiteral = IntegerLiteral(value: Isize)

  datatype BooleanLiteral = BooleanLiteral(value: bool)

  datatype FunctionLiteral = FunctionLiteral(parameters: seq<IdentifierLiteral>, body: BlockExpression)

  /** `alternative == None` means there is no `else` branch. */
  datatype IfExpression = IfExpression(condition: Expression, consequence: BlockExpression, alternative: Option<BlockExpression>)

  /** The Rust field `function` is named `callee` here, `function` being a Dafny keyword. */
  datatype CallExpression = CallExpression(callee: CallableExpression, arguments: seq<Expression>)

  /** The only shapes that may stand in call position. */
  datatype CallableExpression = Identifier(IdentifierLiteral) | Function(FunctionLiteral)

  datatype BlockExpression = BlockExpression(statements: seq<Statement>)

  datatype PrefixExpression = PrefixExpression(operator: PrefixOperator, right: Expression)

  datatype InfixExpression = InfixExpression(left: Expression, operator: InfixOperator, right: Expression)

  /** A callee viewed as the expression it would be outside call position. */
  function CalleeAsExpression(c: CallableExpression): (e: Expression)
    ensures e.Identifier? || e.Function?
  {
    match c
    case Identifier(id) => Expression.Identifier(id)
    case Function(f) => Expression.Function(f)
  }

  /** The callee an expression can serve as, if any: only identifiers and function literals qualify. */
  function AsCallee(e: Expression): (r: Option<CallableExpression>)
    ensures r.Some? <==> e.Identifier? || e.Function?
    ensures r.Some? ==> CalleeAsExpression(r.value) == e
  {
    match e
    case Identifier(id) => Some(CallableExpression.Identifier(id))
    case Function(f) => Some(CallableExpression.Function(f))
    case _ => None
  }

  /** Embedding a callee and reading it back gives the same callee. */
  lemma CalleeRoundTrip(c: CallableExpression)
    ensures AsCallee(CalleeAsExpression(c)) == Some(c)
  {
  }

  /** Distinct callees embed as distinct expressions. */
  lemma CalleeEmbeddingInjective(a: CallableExpression, b: CallableExpression)
    ensures CalleeAsExpression(a) == CalleeAsExpression(b) <==> a == b
  {
  }

  /** The callee of any call, seen as an expression, is an identifier or a function literal. */
  lemma CalleeOfCallIsRestricted(call: CallExpression)
    ensures var e := CalleeAsExpression(call.callee); e.Identifier? || e.Function?
    ensures AsCallee(CalleeAsExpression(call.callee)) == Some(call.callee)
  {
  }
}
