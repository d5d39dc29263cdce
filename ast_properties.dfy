/** What the AST node operations promise: the program concatenation law, the
    rendering of each statement and expression kind, and that copying a node
    changes nothing observable. */
module AstProperties {
  import opened Ast

  // ---------------------------------------------------------------------------
  // Program
  // ---------------------------------------------------------------------------

  /** An empty program has no anchor literal and renders as the empty string. */
  lemma EmptyProgram()
    ensures Program([]).TokenLiteral() == ""
    ensures Program([]).String() == ""
  {
  }

  /** Rendering a program distributes over splitting its statement list. */
  lemma ProgramStringAppend(a: seq<Statement>, b: seq<Statement>)
    ensures Program(a + b).String() == Program(a).String() + Program(b).String()
  {
    LiteralsAppend(a, b);
    FlattenAppend(Literals(a), Literals(b));
  }

  /** The concatenation law: statement i contributes exactly its token literal,
      placed after everything the statements before it contribute. */
  lemma ProgramStringAt(statements: seq<Statement>, i: nat)
    requires i < |statements|
    ensures Program(statements).String() ==
      Program(statements[..i]).String() + statements[i].TokenLiteral() + Program(statements[i + 1..]).String()
  {
    assert statements == statements[..i] + ([statements[i]] + statements[i + 1..]);
    ProgramStringAppend(statements[..i], [statements[i]] + statements[i + 1..]);
    ProgramStringAppend([statements[i]], statements[i + 1..]);
    assert Literals([statements[i]]) == [statements[i].TokenLiteral()];
  }

  /** A program's token literal is its first statement's token literal (or
      empty), and it is the start of its rendering: the first statement's
      literal, followed by the rendering of the rest. */
  lemma ProgramTokenLiteralStartsString(statements: seq<Statement>)
    ensures |statements| > 0 ==> Program(statements).TokenLiteral() == statements[0].TokenLiteral()
    ensures |statements| == 0 ==> Program(statements).TokenLiteral() == ""
    ensures Program(statements).TokenLiteral() <= Program(statements).String()
    ensures |statements| > 0 ==>
      Program(statements).String() == Program(statements).TokenLiteral() + Program(statements[1..]).String()
  {
    if |statements| > 0 {
      ProgramStringAt(statements, 0);
      assert statements[..0] == [];
    }
  }

  /** A program's rendering depends only on its statements' token literals:
      their own renderings never enter it. */
  lemma ProgramStringOnlyLiterals(s: seq<Statement>, t: seq<Statement>)
    requires |s| == |t|
    requires forall i :: 0 <= i < |s| ==> s[i].TokenLiteral() == t[i].TokenLiteral()
    ensures Program(s).String() == Program(t).String()
  {
    assert Literals(s) == Literals(t);
  }

  /** A program holding `let x = 5;` and `return 10;` renders as "letreturn",
      although the two statements render as "let x = " and "return 10". */
  lemma ProgramStringExample()
    ensures var let := LetStatement(Token("let"), Some(Identifier(Some(Token("x")), "x")),
                                    Some(IntegerLiteralExpr(IntegerLiteral(Token("5"), Some(5)))));
            var ret := ReturnStatement(Token("return"), Some(IntegerLiteralExpr(IntegerLiteral(Token("10"), Some(10)))));
            let.String() == "let x = " && ret.String() == "return 10" &&
            Program([let, ret]).String() == "letreturn"
  {
    var let := LetStatement(Token("let"), Some(Identifier(Some(Token("x")), "x")),
                            Some(IntegerLiteralExpr(IntegerLiteral(Token("5"), Some(5)))));
    var ret := ReturnStatement(Token("return"), Some(IntegerLiteralExpr(IntegerLiteral(Token("10"), Some(10)))));
    assert Literals([let, ret]) == ["let", "return"];
  }

  // ---------------------------------------------------------------------------
  // Let, return and expression statements
  // ---------------------------------------------------------------------------

  /** Every statement other than a program answers its own token's literal. */
  lemma StatementTokenLiteral(s: Statement)
    requires !s.Program?
    ensures s.TokenLiteral() == s.token.literal
  {
  }

  /** A let statement renders as "<literal> <name> = " whatever its value:
      the value's rendering never shows. */
  lemma LetStringIgnoresValue(token: Token, name: Identifier, value: Option<Expression>)
    ensures LetStatement(token, Some(name), value).String() == LetStatement(token, Some(name), None).String()
    ensures LetStatement(token, Some(name), value).String() == token.literal + " " + name.value + " = "
  {
  }

  /** The let rendering as written loses the value: `let x = 5` renders as
      "let x = " where "let x = 5" is intended. */
  lemma LetStringDropsValue()
    ensures var let := LetStatement(Token("let"), Some(Identifier(Some(Token("x")), "x")),
                                    Some(IntegerLiteralExpr(IntegerLiteral(Token("5"), Some(5)))));
            let.String() == "let x = " && IntendedLetString(let) == "let x = 5" &&
            let.String() != IntendedLetString(let)
  {
  }

  /** A return statement renders as its literal and a space, followed by the
      rendering of its value when it has one, and by nothing otherwise. */
  lemma ReturnStringSplit(token: Token, returnValue: Option<Expression>)
    ensures var r := ReturnStatement(token, returnValue).String();
            token.literal + " " <= r &&
            r[|token.literal| + 1..] == (if returnValue.Some? then returnValue.value.String() else "")
  {
  }

  /** The two return renderings: bare and with a value. */
  lemma ReturnStringExamples()
    ensures ReturnStatement(Token("return"), None).String() == "return "
    ensures ReturnStatement(Token("return"), Some(IntegerLiteralExpr(IntegerLiteral(Token("10"), Some(10))))).String()
            == "return 10"
  {
  }

  /** An expression statement renders as its expression, or as nothing; its
      token plays no part. */
  lemma ExpressionStatementIgnoresToken(t1: Token, t2: Token, expression: Option<Expression>)
    ensures ExpressionStatement(t1, expression).String() == ExpressionStatement(t2, expression).String()
    ensures ExpressionStatement(t1, expression).String() ==
            (if expression.Some? then expression.value.String() else "")
  {
  }

  // ---------------------------------------------------------------------------
  // Identifier and integer literal
  // ---------------------------------------------------------------------------

  /** An identifier renders as its name whether or not it has a token; its
      token literal is its token's text; when its token spells the name,
      rendering and token literal agree. */
  lemma IdentifierRendering(token: Option<Token>, value: string)
    ensures Identifier(token, value).String() == value
    ensures token.Some? ==> Identifier(token, value).TokenLiteral() == token.value.literal
    ensures Identifier(token, value).String() == Identifier(None, value).String()
    ensures token == Some(Token(value)) ==> Identifier(token, value).TokenLiteral() == Identifier(token, value).String()
  {
  }

  /** An integer literal renders as its token's text, the same as its token
      literal, whatever number was parsed from it. */
  lemma IntegerLiteralSpelling(token: Token, value: Option<i64>)
    ensures IntegerLiteral(token, value).String() == token.literal
    ensures IntegerLiteral(token, value).TokenLiteral() == IntegerLiteral(token, value).String()
    ensures IntegerLiteral(token, value).String() == IntegerLiteral(token, None).String()
  {
  }

  /** Source spelling survives: "007" renders as "007", not as "7". */
  lemma IntegerLiteralKeepsLeadingZeros()
    ensures IntegerLiteral(Token("007"), Some(7)).String() == "007"
  {
  }

  // ---------------------------------------------------------------------------
  // Clone
  // ---------------------------------------------------------------------------

  /** The deep copy of a statement equals it, through any nesting of programs. */
  lemma {:induction false} CloneIsIdentity(s: Statement)
    ensures s.Clone() == s
  {
    match s
    case Program(statements) =>
      forall i | 0 <= i < |statements| ensures statements[i].Clone() == statements[i] {
        CloneIsIdentity(statements[i]);
      }
      assert s.Clone().statements == statements;
    case LetStatement(_, name, value) =>
    case ReturnStatement(_, returnValue) =>
    case ExpressionStatement(_, expression) =>
  }

  /** The copy of an expression equals it, and so has the same rendering and,
      when it has a token, the same token literal. */
  lemma ExpressionCloneIsIdentity(e: Expression)
    ensures e.Clone() == e
    ensures e.Clone().String() == e.String()
    ensures e.HasToken() ==> e.Clone().HasToken() && e.Clone().TokenLiteral() == e.TokenLiteral()
  {
  }

  /** A copy has the same token literal and, when the original can be
      rendered, can be rendered too, to the same text. */
  lemma CloneRendersAlike(s: Statement)
    ensures s.Clone().TokenLiteral() == s.TokenLiteral()
    ensures s.Renderable() ==> s.Clone().Renderable() && s.Clone().String() == s.String()
  {
    CloneIsIdentity(s);
  }
}
