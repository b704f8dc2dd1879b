/**
  Structural equality as `#[derive(PartialEq)]` generates it for the syntax
  tree: two enum values are equal when they have the same variant and equal
  payloads; two structs when all fields are equal; two `Vec`s when they have
  the same length and are equal position by position; two `Option`s when both
  are `None` or both are `Some` of equal values. `Program` derives no
  `PartialEq`, so it has no equality here.

  The main result is that this equality coincides with Dafny's `==` on the
  datatypes of `Ast`; the properties the tree relies on follow from it.
 */
module Equality {
  import opened Wrappers
  import opened Operators
  import opened Ast

  // Leaves: `String`, `isize` and `bool` fields compared by value.

  function IdentEq(a: IdentifierLiteral, b: IdentifierLiteral): bool
  {
    a.value == b.value
  }

  function IntegerEq(a: IntegerLiteral, b: IntegerLiteral): bool
  {
    a.value == b.value
  }

  function BooleanEq(a: BooleanLiteral, b: BooleanLiteral): bool
  {
    a.value == b.value
  }

  // Field-less enums: equal exactly when the variants agree.

  function PrefixOpEq(a: PrefixOperator, b: PrefixOperator): bool
  {
    match (a, b)
    case (Bang, Bang) => true
    case (Minus, Minus) => true
    case _ => false
  }

  function InfixOpEq(a: InfixOperator, b: InfixOperator): bool
  {
    match (a, b)
    case (Plus, Plus) => true
    case (Minus, Minus) => true
    case (Asterisk, Asterisk) => true
    case (Slash, Slash) => true
    case (Equal, Equal) => true
    case (NotEqual, NotEqual) => true
    case (LessThan, LessThan) => true
    case (GreaterThan, GreaterThan) => true
    case _ => false
  }

  function IdentSeqEq(xs: seq<IdentifierLiteral>, ys: seq<IdentifierLiteral>): bool
  {
    |xs| == |ys| && (|xs| == 0 || (IdentEq(xs[0], ys[0]) && IdentSeqEq(xs[1..], ys[1..])))
  }

  // The mutually recursive part of the tree.

  function StatementEq(a: Statement, b: Statement): bool
    decreases a
  {
    match (a, b)
    case (Let(x), Let(y)) => LetEq(x, y)
    case (Return(x), Return(y)) => ReturnEq(x, y)
    case (Expression(x), Expression(y)) => ExprStmtEq(x, y)
    case _ => false
  }

  function LetEq(a: LetStatement, b: LetStatement): bool
    decreases a
  {
    IdentEq(a.name, b.name) && ExprEq(a.value, b.value)
  }

  function ReturnEq(a: ReturnStatement, b: ReturnStatement): bool
    decreases a
  {
    match (a.returnValue, b.returnValue)
    case (None, None) => true
    case (Some(x), Some(y)) => ExprEq(x, y)
    case _ => false
  }

  function ExprStmtEq(a: ExpressionStatement, b: ExpressionStatement): bool
    decreases a
  {
    match (a, b)
    case (Terminating(x), Terminating(y)) => ExprEq(x, y)
    case (NonTerminating(x), NonTerminating(y)) => ExprEq(x, y)
    case _ => false
  }

  function ExprEq(a: Expression, b: Expression): bool
    decreases a
  {
    match (a, b)
    case (Identifier(x), Identifier(y)) => IdentEq(x, y)
    case (Int(x), Int(y)) => IntegerEq(x, y)
    case (Boolean(x), Boolean(y)) => BooleanEq(x, y)
    case (Function(x), Function(y)) => FunctionEq(x, y)
    case (If(x), If(y)) => IfEq(x, y)
    case (Call(x), Call(y)) => CallEq(x, y)
    case (Block(x), Block(y)) => BlockEq(x, y)
    case (Prefix(x), Prefix(y)) => PrefixEq(x, y)
    case (Infix(x), Infix(y)) => InfixEq(x, y)
    case (NoneLiteral, NoneLiteral) => true
    case _ => false
  }

  function FunctionEq(a: FunctionLiteral, b: FunctionLiteral): bool
    decreases a
  {
    IdentSeqEq(a.parameters, b.parameters) && BlockEq(a.body, b.body)
  }

  function IfEq(a: IfExpression, b: IfExpression): bool
    decreases a
  {
    && ExprEq(a.condition, b.condition)
    && BlockEq(a.consequence, b.consequence)
    && match (a.alternative, b.alternative)
       case (None, None) => true
       case (Some(x), Some(y)) => BlockEq(x, y)
       case _ => false
  }

  function CallEq(a: CallExpression, b: CallExpression): bool
    decreases a
  {
    CallableEq(a.callee, b.callee) && ExprSeqEq(a.arguments, b.arguments)
  }

  function CallableEq(a: CallableExpression, b: CallableExpression): bool
    decreases a
  {
    match (a, b)
    case (Identifier(x), Identifier(y)) => IdentEq(x, y)
    case (Function(x), Function(y)) => FunctionEq(x, y)
    case _ => false
  }

  function BlockEq(a: BlockExpression, b: BlockExpression): bool
    decreases a
  {
    StatementSeqEq(a.statements, b.statements)
  }

  function PrefixEq(a: PrefixExpression, b: PrefixExpression): bool
    decreases a
  {
    PrefixOpEq(a.operator, b.operator) && ExprEq(a.right, b.right)
  }

  function InfixEq(a: InfixExpression, b: InfixExpression): bool
    decreases a
  {
    ExprEq(a.left, b.left) && InfixOpEq(a.operator, b.operator) && ExprEq(a.right, b.right)
  }

  function ExprSeqEq(xs: seq<Expression>, ys: seq<Expression>): bool
    decreases xs
  {
    |xs| == |ys| && (|xs| == 0 || (ExprEq(xs[0], ys[0]) && ExprSeqEq(xs[1..], ys[1..])))
  }

  function StatementSeqEq(xs: seq<Statement>, ys: seq<Statement>): bool
    decreases xs
  {
    |xs| == |ys| && (|xs| == 0 || (StatementEq(xs[0], ys[0]) && StatementSeqEq(xs[1..], ys[1..])))
  }

  // The derived equality is Dafny's equality.

  lemma PrefixOpEqIsEquality(a: PrefixOperator, b: PrefixOperator)
    ensures PrefixOpEq(a, b) <==> a == b
  {
  }

  lemma InfixOpEqIsEquality(a: InfixOperator, b: InfixOperator)
    ensures InfixOpEq(a, b) <==> a == b
  {
  }

  lemma {:induction false} IdentSeqEqIsEquality(xs: seq<IdentifierLiteral>, ys: seq<IdentifierLiteral>)
    ensures IdentSeqEq(xs, ys) <==> xs == ys
  {
    if |xs| == |ys| && |xs| > 0 {
      IdentSeqEqIsEquality(xs[1..], ys[1..]);
      assert xs == [xs[0]] + xs[1..];
      assert ys == [ys[0]] + ys[1..];
    }
  }

  lemma {:induction false} StatementEqIsEquality(a: Statement, b: Statement)
    ensures StatementEq(a, b) <==> a == b
    decreases a
  {
    match (a, b)
    case (Let(x), Let(y)) =>
      ExprEqIsEquality(x.value, y.value);
    case (Return(x), Return(y)) =>
      if x.returnValue.Some? && y.returnValue.Some? {
        ExprEqIsEquality(x.returnValue.value, y.returnValue.value);
      }
    case (Expression(x), Expression(y)) =>
      ExprStmtEqIsEquality(x, y);
    case _ =>
  }

  lemma {:induction false} ExprStmtEqIsEquality(a: ExpressionStatement, b: ExpressionStatement)
    ensures ExprStmtEq(a, b) <==> a == b
    decreases a
  {
    match (a, b)
    case (Terminating(x), Terminating(y)) => ExprEqIsEquality(x, y);
    case (NonTerminating(x), NonTerminating(y)) => ExprEqIsEquality(x, y);
    case _ =>
  }

  lemma {:induction false} ExprEqIsEquality(a: Expression, b: Expression)
    ensures ExprEq(a, b) <==> a == b
    decreases a
  {
    match (a, b)
    case (Function(x), Function(y)) =>
      FunctionEqIsEquality(x, y);
    case (If(x), If(y)) =>
      ExprEqIsEquality(x.condition, y.condition);
      BlockEqIsEquality(x.consequence, y.consequence);
      if x.alternative.Some? && y.alternative.Some? {
        BlockEqIsEquality(x.alternative.value, y.alternative.value);
      }
    case (Call(x), Call(y)) =>
      CallableEqIsEquality(x.callee, y.callee);
      ExprSeqEqIsEquality(x.arguments, y.arguments);
    case (Block(x), Block(y)) =>
      BlockEqIsEquality(x, y);
    case (Prefix(x), Prefix(y)) =>
      PrefixOpEqIsEquality(x.operator, y.operator);
      ExprEqIsEquality(x.right, y.right);
    case (Infix(x), Infix(y)) =>
      ExprEqIsEquality(x.left, y.left);
      InfixOpEqIsEquality(x.operator, y.operator);
      ExprEqIsEquality(x.right, y.right);
    case _ =>
  }

  lemma {:induction false} FunctionEqIsEquality(a: FunctionLiteral, b: FunctionLiteral)
    ensures FunctionEq(a, b) <==> a == b
    decreases a
  {
    IdentSeqEqIsEquality(a.parameters, b.parameters);
    BlockEqIsEquality(a.body, b.body);
  }

  lemma {:induction false} CallableEqIsEquality(a: CallableExpression, b: CallableExpression)
    ensures CallableEq(a, b) <==> a == b
    decreases a
  {
    match (a, b)
    case (Function(x), Function(y)) => FunctionEqIsEquality(x, y);
    case _ =>
  }

  lemma {:induction false} BlockEqIsEquality(a: BlockExpression, b: BlockExpression)
    ensures BlockEq(a, b) <==> a == b
    decreases a
  {
    StatementSeqEqIsEquality(a.statements, b.statements);
  }

  lemma {:induction false} ExprSeqEqIsEquality(xs: seq<Expression>, ys: seq<Expression>)
    ensures ExprSeqEq(xs, ys) <==> xs == ys
    decreases xs
  {
    if |xs| == |ys| && |xs| > 0 {
      ExprEqIsEquality(xs[0], ys[0]);
      ExprSeqEqIsEquality(xs[1..], ys[1..]);
      assert xs == [xs[0]] + xs[1..];
      assert ys == [ys[0]] + ys[1..];
    }
  }

  lemma {:induction false} StatementSeqEqIsEquality(xs: seq<Statement>, ys: seq<Statement>)
    ensures StatementSeqEq(xs, ys) <==> xs == ys
    decreases xs
  {
    if |xs| == |ys| && |xs| > 0 {
      StatementEqIsEquality(xs[0], ys[0]);
      StatementSeqEqIsEquality(xs[1..], ys[1..]);
      assert xs == [xs[0]] + xs[1..];
      assert ys == [ys[0]] + ys[1..];
    }
  }

  // The struct-level equalities, each read off its enclosing variant.

  lemma LetEqIsEquality(a: LetStatement, b: LetStatement)
    ensures LetEq(a, b) <==> a == b
  {
    StatementEqIsEquality(Let(a), Let(b));
  }

  lemma ReturnEqIsEquality(a: ReturnStatement, b: ReturnStatement)
    ensures ReturnEq(a, b) <==> a == b
  {
    StatementEqIsEquality(Return(a), Return(b));
  }

  lemma IfEqIsEquality(a: IfExpression, b: IfExpression)
    ensures IfEq(a, b) <==> a == b
  {
    ExprEqIsEquality(If(a), If(b));
  }

  lemma CallEqIsEquality(a: CallExpression, b: CallExpression)
    ensures CallEq(a, b) <==> a == b
  {
    ExprEqIsEquality(Call(a), Call(b));
  }

  lemma PrefixEqIsEquality(a: PrefixExpression, b: PrefixExpression)
    ensures PrefixEq(a, b) <==> a == b
  {
    ExprEqIsEquality(Prefix(a), Prefix(b));
  }

  lemma InfixEqIsEquality(a: InfixExpression, b: InfixExpression)
    ensures InfixEq(a, b) <==> a == b
  {
    ExprEqIsEquality(Infix(a), Infix(b));
  }

  // Properties of the tree that follow from the derived equality.

  /** Structural equality on expressions and statements is an equivalence relation. */
  lemma {:induction false} StructuralEqualityIsEquivalence()
    ensures forall a: Expression :: ExprEq(a, a)
    ensures forall a: Expression, b: Expression :: ExprEq(a, b) ==> ExprEq(b, a)
    ensures forall a: Expression, b: Expression, c: Expression :: ExprEq(a, b) && ExprEq(b, c) ==> ExprEq(a, c)
    ensures forall a: Statement :: StatementEq(a, a)
    ensures forall a: Statement, b: Statement :: StatementEq(a, b) ==> StatementEq(b, a)
    ensures forall a: Statement, b: Statement, c: Statement :: StatementEq(a, b) && StatementEq(b, c) ==> StatementEq(a, c)
  {
    forall a: Expression, b: Expression {
      ExprEqIsEquality(a, b);
    }
    forall a: Statement, b: Statement {
      StatementEqIsEquality(a, b);
    }
  }

  /** Two blocks are equal exactly when they hold equal statements at every position. */
  lemma BlockEqIsElementwise(a: BlockExpression, b: BlockExpression)
    ensures BlockEq(a, b) <==>
      && |a.statements| == |b.statements|
      && forall i :: 0 <= i < |a.statements| ==> StatementEq(a.statements[i], b.statements[i])
  {
    BlockEqIsEquality(a, b);
    forall i | 0 <= i < |a.statements| && i < |b.statements| {
      StatementEqIsEquality(a.statements[i], b.statements[i]);
    }
    if |a.statements| == |b.statements| && forall i :: 0 <= i < |a.statements| ==> StatementEq(a.statements[i], b.statements[i]) {
      assert a.statements == b.statements;
    }
  }

  /**
    Reordering the statements of a block yields a different block. The
    multiset requirement only says what "reordering" means: any two different
    statement sequences give unequal blocks.
   */
  lemma ReorderedBlocksDiffer(xs: seq<Statement>, ys: seq<Statement>)
    requires multiset(xs) == multiset(ys) && xs != ys
    ensures !BlockEq(BlockExpression(xs), BlockExpression(ys))
    ensures !ExprEq(Block(BlockExpression(xs)), Block(BlockExpression(ys)))
  {
    BlockEqIsEquality(BlockExpression(xs), BlockExpression(ys));
  }

  /**
    Reordering the arguments of a call yields a different call. As for blocks,
    the multiset requirement only says what "reordering" means: any two
    different argument sequences give unequal calls.
   */
  lemma ReorderedArgumentsDiffer(f: CallableExpression, xs: seq<Expression>, ys: seq<Expression>)
    requires multiset(xs) == multiset(ys) && xs != ys
    ensures !CallEq(CallExpression(f, xs), CallExpression(f, ys))
    ensures !ExprEq(Call(CallExpression(f, xs)), Call(CallExpression(f, ys)))
  {
    ExprSeqEqIsEquality(xs, ys);
    ExprEqIsEquality(Call(CallExpression(f, xs)), Call(CallExpression(f, ys)));
  }

  /** A conditional without `else` never equals one with an `else`, not even an empty one. */
  lemma MissingElseIsObservable(a: IfExpression, b: IfExpression)
    ensures IfEq(a, b) ==> (a.alternative.None? <==> b.alternative.None?)
    ensures !ExprEq(If(IfExpression(a.condition, a.consequence, None)),
                    If(IfExpression(a.condition, a.consequence, Some(BlockExpression([])))))
  {
  }

  /** The terminating tag is part of equality: the same expression with the two tags differs. */
  lemma TerminationTagIsObservable(x: Expression, y: Expression)
    ensures !ExprStmtEq(Terminating(x), NonTerminating(y))
    ensures !ExprStmtEq(NonTerminating(x), Terminating(y))
    ensures !StatementEq(Expression(Terminating(x)), Expression(NonTerminating(x)))
    ensures ExprStmtEq(Terminating(x), Terminating(y)) <==> x == y
    ensures ExprStmtEq(NonTerminating(x), NonTerminating(y)) <==> x == y
  {
    ExprEqIsEquality(x, y);
  }

  /** A bare `return` differs from returning the `NoneLiteral` expression. */
  lemma BareReturnIsObservable(r: ReturnStatement)
    ensures StatementEq(Return(ReturnStatement(None)), Return(r)) <==> r.returnValue.None?
    ensures !StatementEq(Return(ReturnStatement(None)), Return(ReturnStatement(Some(NoneLiteral))))
  {
  }
}
