# Namu AST node model

A Dafny model of the abstract-syntax-tree nodes of the Namu interpreter
(`src/ast/mod.rs`). The parser builds these nodes and the evaluator walks them.

- `Ast.Statement` is the closed family of statement-like nodes: `Program`,
  `LetStatement`, `ReturnStatement` and `ExpressionStatement`. A `Program` is
  itself a statement holding a `seq<Statement>`, so programs can nest.
- `Ast.Expression` is the closed family of expression-like nodes. It wraps the
  two leaf structs `Identifier` and `IntegerLiteral`. `Identifier` is its own
  datatype because a let statement holds one directly as its name.
- `Token` keeps only the `literal` text, the only part of a lexer token the
  AST reads. `IntegerLiteral.value` is an optional `i64`, a newtype over the
  64-bit signed range.
- Each node has `TokenLiteral()`, `String()` and `Clone()` member functions.
  Where the Rust code calls `unwrap()` on an optional field, the function has a
  precondition. `Identifier.TokenLiteral` and `Expression.TokenLiteral` require
  the identifier's token. `Statement.String` requires a let statement's name
  (`Renderable()`).
- `Program::string` fills a mutable buffer in a loop. It is modelled as the
  method `Ast.RenderProgram`, proved equal to the `Program` arm of
  `Statement.String`, which is `Flatten(Literals(statements))`.
- Points where the code behaves unexpectedly are modelled as written:
  - A let statement renders as `"<literal> <name> = "`. The value's rendering
    is computed into `out2` and then thrown away (src/ast/mod.rs:98-101),
    whereas `ReturnStatement::string` returns its `out2`
    (src/ast/mod.rs:157-160). See Findings.
  - A program renders as the concatenation of its statements' token literals,
    not their renderings. This is kept as written because the intent cannot be
    told from the file.
  - A missing let name or identifier token is a precondition violation, which
    is what a Rust panic amounts to. It is not a recoverable error.
- Cloning is a structural copy. `Clone()` rebuilds every node, and
  `CloneIsIdentity` proves that the copy equals the original, including
  through nested programs.

## Model

| member | source | states |
|---|---|---|
| Ast.RenderProgram | src/ast/mod.rs:63-69 | The buffer built by appending each statement's token literal, in order, equals the program's rendering. Its length is the sum of the literals' lengths. |
| Ast.Literals | src/ast/mod.rs:65-66 | Gives one entry per statement, in order. Entry i is statement i's token literal. |
| Ast.Flatten | src/ast/mod.rs:64-68 | The concatenation's length is the sum of the parts' lengths. The first part is a prefix of it. |
| Ast.FlattenAppend | src/ast/mod.rs:64-68 | Concatenating a split list of parts is the concatenation of the two halves' concatenations. |
| Ast.LiteralsAppend | src/ast/mod.rs:65-66 | Taking token literals distributes over splitting the statement list. |
| Ast.IntendedLetString | src/ast/mod.rs:95-103 | The intended let rendering starts with the as-written rendering. With a value, the rest is exactly the value's rendering. Without a value, the two renderings are equal. |
| AstProperties.EmptyProgram | src/ast/mod.rs:55-69 | An empty program has the empty token literal and the empty rendering. |
| AstProperties.ProgramStringAppend | src/ast/mod.rs:63-69 | Rendering a program distributes over concatenating statement lists. |
| AstProperties.ProgramStringAt | src/ast/mod.rs:63-69 | Statement i contributes exactly its token literal. That literal sits between the renderings of the statements before it and the statements after it. |
| AstProperties.ProgramTokenLiteralStartsString | src/ast/mod.rs:55-69 | A non-empty program's token literal is its first statement's token literal. An empty program's is "". It is a prefix of the program's rendering. A non-empty program renders as that literal followed by the rendering of the rest. |
| AstProperties.ProgramStringOnlyLiterals | src/ast/mod.rs:63-69 | Two programs whose statements have pointwise equal token literals render identically. The statements' own renderings play no part. |
| AstProperties.ProgramStringExample | src/ast/mod.rs:63-69 | `let x = 5` and `return 10` render as "let x = " and "return 10". A program of the two renders as "letreturn". |
| AstProperties.StatementTokenLiteral | src/ast/mod.rs:91-93 | A let, return or expression statement has its own token's literal as its token literal. The same code is at lines 150-152 and 185-187. |
| AstProperties.LetStringIgnoresValue | src/ast/mod.rs:95-103 | With a name present, a let statement renders as `literal + " " + name + " = "`. The rendering is the same with or without a value. |
| AstProperties.LetStringDropsValue | src/ast/mod.rs:98-101 | `let x = 5` renders as "let x = ". The intended rendering is "let x = 5". |
| AstProperties.ReturnStringSplit | src/ast/mod.rs:154-163 | A return statement's rendering begins with `literal + " "`. What follows is the value's rendering when there is a value, and nothing otherwise. |
| AstProperties.ReturnStringExamples | src/ast/mod.rs:154-163 | A bare `return` renders as "return ". `return 10` renders as "return 10". |
| AstProperties.ExpressionStatementIgnoresToken | src/ast/mod.rs:189-194 | An expression statement renders as its expression's rendering, or as "" when there is no expression. Its token does not affect the result. |
| AstProperties.IdentifierRendering | src/ast/mod.rs:124-130 | An identifier renders as its name, with or without a token. With a token, its token literal is that token's literal. When the token spells the name, the token literal equals the rendering. |
| AstProperties.IntegerLiteralSpelling | src/ast/mod.rs:216-222 | An integer literal's rendering and token literal are both its token's text. Neither depends on the parsed value. |
| AstProperties.IntegerLiteralKeepsLeadingZeros | src/ast/mod.rs:220-222 | A literal spelled "007" with value 7 renders as "007". |
| AstProperties.CloneIsIdentity | src/ast/mod.rs:70-72 | The deep copy of any statement, including nested programs, equals the original. This covers every statement kind's `box_clone`, also at lines 104-106, 164-166 and 195-197. |
| AstProperties.CloneRendersAlike | src/ast/mod.rs:70-72 | A copy has the original's token literal. A copy of a renderable statement is renderable and renders to the same text. This holds for every statement kind's `box_clone`, also at lines 104-106, 164-166 and 195-197. |
| AstProperties.ExpressionCloneIsIdentity | src/ast/mod.rs:131-133 | The copy of an expression equals it and renders the same. A copy of an expression with a token has the same token literal. This covers both expression kinds' `box_clone`, also at lines 223-225. |

## Findings

| source | as written | input that shows it | evidently intended | confidence | as-written member | corrected member |
|---|---|---|---|---|---|---|
| src/ast/mod.rs:98-101 | The let rendering with the value appended is built and then discarded. The value-less prefix is returned. | A let statement with token "let", name `x` and value integer literal "5" | "let x = 5" | high; not executed | AstProperties.LetStringDropsValue | Ast.IntendedLetString |

`Statement.String` keeps the as-written let rendering, because the model
reproduces the source. Nothing else in this file reads a let statement's
rendering: a program renders its statements' token literals only.

## Left out

- `type_name` and `type_of` (src/ast/mod.rs:234-236): their text comes from the Rust compiler's `std::any::type_name`. The datatype constructor is the node's kind instead.
- `to_any` and downcasting through `Any`: this is runtime reflection. Pattern matching on a constructor takes its place, so there is no kind name and no checked downcast.
- `statement_node` and `expression_node`: they have empty bodies.
- The `Clone for Box<dyn Statement>` and `Clone for Box<dyn Expression>` plumbing (src/ast/mod.rs:24-28, 42-46): value datatypes need no boxing. `Clone()` stands for `box_clone` and the derived `Clone`.
- Aliasing and independence of copies: Dafny datatypes are immutable values, so no copy can be changed through another.
- The token module `crate::token` is not part of this model. Only a token's `literal` is kept.
- The numeric parse behind `IntegerLiteral.value`: this file never computes or reads it. The value is carried as an optional `i64`.
- A panic on `unwrap()` of a missing let name or identifier token is modelled as a precondition, not as an error value.
