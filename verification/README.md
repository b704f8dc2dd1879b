# Syntax tree of the rust-interpreter scripting language, in Dafny

This project models the abstract syntax tree of a small expression-oriented
scripting language, as `src/ast.rs` defines it. That file is pure data plus
two `Display` implementations. A `Program` is a sequence of `Statement`s.
A statement is a `let` binding, a `return` with an optional value, or an
expression statement. An expression statement is tagged `Terminating` if it
was written with a trailing separator and `NonTerminating` if it was not.
Expressions nest through function literals, conditionals, calls, blocks and
prefix/infix operator applications. In call position the tree admits only an
identifier or a function literal (`CallableExpression`).

The project has four modules:

- `Wrappers` (`wrappers.dfy`): the `Option` type that stands for Rust's `Option`.
- `Operators` (`operators.dfy`): `PrefixOperator` (2 variants) and
  `InfixOperator` (8 variants). It also holds their canonical symbols, which
  are what `Display` writes. There are decoders that invert the symbols and
  lemmas showing that the symbols round-trip. The symbols are distinct within
  each enumeration. The one clash between the two enumerations is "-".
- `Ast` (`ast.dfy`): one datatype per Rust enum and struct other than the
  two operator enums, which are in `Operators`. Rust's `Box`
  fields become plain recursive fields. There is also an embedding of a
  callee into `Expression` and a partial inverse of that embedding.
- `Equality` (`equality.dfy`): the structural equality that
  `#[derive(PartialEq)]` generates, written out one function per derived
  type. Mutual induction proves that it coincides with Dafny's `==`. It
  follows that the equality is an equivalence relation and is order-sensitive
  on blocks and call arguments. It also follows that the terminating tag, the
  missing `else` and the bare `return` are all visible to equality.

## Model

| member | source | states |
|---|---|---|
| Operators.PrefixSymbol | src/ast.rs:121-127 | Every prefix operator has a symbol, and the symbol is exactly one character long |
| Operators.InfixSymbol | src/ast.rs:142-155 | Every infix operator has a symbol of 1 or 2 characters; it has 2 characters exactly for `Equal` and `NotEqual` |
| Operators.ParsePrefix | src/ast.rs:116-127 | The decoder returns an operator only if that operator's symbol is the given text; it returns `None` only if no prefix operator has that symbol |
| Operators.ParseInfix | src/ast.rs:131-155 | The decoder returns an operator only if that operator's symbol is the given text; it returns `None` only if no infix operator has that symbol |
| Operators.PrefixRoundTrip | src/ast.rs:121-127 | Decoding the symbol of a prefix operator gives back that operator |
| Operators.InfixRoundTrip | src/ast.rs:142-155 | Decoding the symbol of any of the 8 infix operators gives back that operator |
| Operators.PrefixSymbolInjective | src/ast.rs:123-126 | `!` and `-` are distinct: two prefix operators have the same symbol if and only if they are the same operator |
| Operators.InfixSymbolInjective | src/ast.rs:144-153 | The 8 infix symbols are pairwise distinct: two infix operators have the same symbol if and only if they are equal |
| Operators.PrefixInfixSymbolsOverlap | src/ast.rs:116-155 | A prefix symbol equals an infix symbol if and only if both operators are `Minus` |
| Operators.ParseOperator | src/ast.rs:116-155 | The class-indexed decoder returns only an operator of the requested class whose symbol is the text; it returns `None` only if no operator of that class has that symbol |
| Operators.ClassedRoundTrip | src/ast.rs:116-155 | Given its class, every operator of either enumeration is recovered from its symbol |
| Operators.NoClassFreeDecoder | src/ast.rs:125-146 | Every decoder from symbol alone to an operator of either class gets some operator wrong |
| Ast.CalleeAsExpression | src/ast.rs:91-95 | Embedding a callee into `Expression` always gives the `Identifier` or the `Function` variant |
| Ast.AsCallee | src/ast.rs:44-55 | An expression can serve as a callee if and only if it is an identifier or a function literal, and the callee it yields embeds back to that expression; the other 8 variants are rejected |
| Ast.CalleeRoundTrip | src/ast.rs:86-95 | Embedding a callee into `Expression` and reading it back gives the same callee |
| Ast.CalleeEmbeddingInjective | src/ast.rs:86-95 | Two callees embed as the same expression if and only if they are equal |
| Ast.CalleeOfCallIsRestricted | src/ast.rs:85-89 | The callee of every call expression is an identifier or a function literal, and it is recovered from its embedding |
| Equality.PrefixOpEqIsEquality | src/ast.rs:115-119 | The derived equality on `PrefixOperator` holds exactly for identical variants |
| Equality.InfixOpEqIsEquality | src/ast.rs:130-140 | The derived equality on `InfixOperator` holds exactly for identical variants |
| Equality.IdentSeqEqIsEquality | src/ast.rs:72-76 | Comparing parameter lists by length and then element by element is sequence equality |
| Equality.StatementEqIsEquality | src/ast.rs:12-28 | The derived statement equality holds if and only if the two statements are the same tree |
| Equality.ExprStmtEqIsEquality | src/ast.rs:30-34 | The derived equality on expression statements holds if and only if the tag and the expression both agree |
| Equality.ExprEqIsEquality | src/ast.rs:43-113 | The derived expression equality, variant by variant and field by field, holds if and only if the two expressions are the same tree |
| Equality.FunctionEqIsEquality | src/ast.rs:72-76 | Two function literals are equal under the derived equality if and only if they have the same parameters in order and the same body |
| Equality.CallableEqIsEquality | src/ast.rs:91-95 | The derived equality on callees holds if and only if the two callees are the same value |
| Equality.BlockEqIsEquality | src/ast.rs:97-100 | The derived equality on blocks holds if and only if the statement sequences are identical |
| Equality.ExprSeqEqIsEquality | src/ast.rs:85-89 | Comparing argument vectors by length and then element by element is sequence equality |
| Equality.StatementSeqEqIsEquality | src/ast.rs:97-100 | Comparing statement vectors by length and then element by element is sequence equality |
| Equality.LetEqIsEquality | src/ast.rs:19-23 | Two `let` statements are equal under the derived equality if and only if they have the same name and the same value expression |
| Equality.ReturnEqIsEquality | src/ast.rs:25-28 | Two return statements are equal under the derived equality if and only if both have no value or both return the same expression |
| Equality.IfEqIsEquality | src/ast.rs:78-83 | Two conditionals are equal under the derived equality if and only if condition, consequence and optional alternative all agree |
| Equality.CallEqIsEquality | src/ast.rs:85-89 | Two calls are equal under the derived equality if and only if they have the same callee and the same arguments in order |
| Equality.PrefixEqIsEquality | src/ast.rs:102-106 | Two prefix expressions are equal under the derived equality if and only if operator and operand agree |
| Equality.InfixEqIsEquality | src/ast.rs:108-113 | Two infix expressions are equal under the derived equality if and only if both operands and the operator agree |
| Equality.StructuralEqualityIsEquivalence | src/ast.rs:12-113 | The derived equality on expressions and on statements is reflexive, symmetric and transitive |
| Equality.BlockEqIsElementwise | src/ast.rs:97-100 | Two blocks are equal if and only if they have the same length and equal statements at every position |
| Equality.ReorderedBlocksDiffer | src/ast.rs:97-100 | A block whose statements are a different ordering of the same multiset is unequal, both as a block and as a `Block` expression |
| Equality.ReorderedArgumentsDiffer | src/ast.rs:85-89 | A call whose arguments are a different ordering of the same multiset is unequal, both as a call and as a `Call` expression |
| Equality.MissingElseIsObservable | src/ast.rs:78-83 | Equal conditionals agree on whether an `else` exists; an `If` without `else` is never equal to the same `If` with an empty `else` block |
| Equality.TerminationTagIsObservable | src/ast.rs:30-34 | `Terminating` never equals `NonTerminating`, even around the same expression; two statements with the same tag are equal if and only if their expressions are |
| Equality.BareReturnIsObservable | src/ast.rs:25-28 | A bare `return` equals a return statement if and only if that statement has no value, so it differs from `return` of `NoneLiteral` |

## Left out

- The block-result rule: the value of a block is the value of its last `NonTerminating` expression statement. Only an evaluator would implement that rule, and no evaluator is part of this model. The tree keeps the tag, and `Equality.TerminationTagIsObservable` shows that equality sees it.
- Lexing, parsing and precedence resolution: they build these trees but are not part of this model.
- The `Debug` and `Clone` derives: Dafny datatypes are immutable values, so there is nothing to model for cloning.
- `std::fmt::Formatter` plumbing: `Display::fmt` is modelled as a pure function that returns the symbol. The write into the formatter is left out, and so is its `fmt::Result`: these implementations return `Err` only when the formatter does and raise no error of their own.
- Equality on `Program`: `Program` derives no `PartialEq`, so `Equality` defines no equality for it, even though the Dafny datatype has `==`.
- The width of `isize`: `Ast.Isize` fixes it at 64 bits. Nothing in the tree does arithmetic, so overflow never arises.
- The Rust submodules `statement` and `expression` are merged into the single module `Ast`, except the two operator enums and their symbol mappings, which are in `Operators`. The re-exports at the top of the file put them in one namespace in Rust as well.
- Two fields are renamed. `CallExpression.function` is named `callee` because `function` is a Dafny keyword. `ReturnStatement.return_value` is named `returnValue` to follow Dafny naming.
