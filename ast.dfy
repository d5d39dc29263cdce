/** The AST node model of the Namu interpreter: two closed families of nodes
    (statements and expressions), the literal text of each node's anchor
    token, its textual rendering, and its structural copy. */
module Ast {

  datatype Option<T> = None | Some(value: T)

  /** A lexer token. The AST only ever reads its literal text. */
  datatype Token = Token(literal: string)

  /** The 64-bit signed integers that IntegerLiteral.value may hold. */
  newtype i64 = x: int | -0x8000_0000_0000_0000 <= x < 0x8000_0000_0000_0000

  /** A variable name. The anchor token is optional; `value` is the name itself. */
  datatype Identifier = Identifier(token: Option<Token>, value: string) {

    /** The literal of the anchor token; the source unwraps the token, so it must be there. */
    function TokenLiteral(): string
      requires token.Some?
    {
      token.value.literal
    }

    /** An identifier renders as its name, whatever its token. */
    function String(): string {
      value
    }

    /** The derived structural copy. */
    function Clone(): Identifier {
      Identifier(token, value)
    }
  }

  /** An integer literal: its token and the (possibly not yet parsed) numeric value. */
  datatype IntegerLiteral = IntegerLiteral(token: Token, value: Option<i64>) {

    function TokenLiteral(): string {
      token.literal
    }

    /** Renders the token's text verbatim, never the parsed number. */
    function String(): string {
      token.literal
    }

    function Clone(): IntegerLiteral {
      IntegerLiteral(token, value)
    }
  }

  /** The expression-like nodes. */
  datatype Expression =
    | IdentifierExpr(identifier: Identifier)
    | IntegerLiteralExpr(integer: IntegerLiteral)
  {
    /** Whether TokenLiteral can be asked: a tokenless identifier has no literal. */
    predicate HasToken() {
      IdentifierExpr? ==> identifier.token.Some?
    }

    function TokenLiteral(): string
      requires HasToken()
    {
      match this
      case IdentifierExpr(id) => id.TokenLiteral()
      case IntegerLiteralExpr(lit) => lit.TokenLiteral()
    }

    function String(): string {
      match this
      case IdentifierExpr(id) => id.String()
      case IntegerLiteralExpr(lit) => lit.String()
    }

    function Clone(): Expression {
      match this
      case IdentifierExpr(id) => IdentifierExpr(id.Clone())
      case IntegerLiteralExpr(lit) => IntegerLiteralExpr(lit.Clone())
    }
  }

  /** The statement-like nodes. A Program is itself a statement, so programs nest. */
  datatype Statement =
    | Program(statements: seq<Statement>)
    | LetStatement(token: Token, name: Option<Identifier>, value: Option<Expression>)
    | ReturnStatement(token: Token, returnValue: Option<Expression>)
    | ExpressionStatement(token: Token, expression: Option<Expression>)
  {
    /** A program forwards to its first statement (or is empty); the others give their own token's text. */
    function TokenLiteral(): string {
      match this
      case Program(statements) =>
        if |statements| > 0 then statements[0].TokenLiteral() else ""
      case LetStatement(token, _, _) => token.literal
      case ReturnStatement(token, _) => token.literal
      case ExpressionStatement(token, _) => token.literal
    }

    /** Whether String can be asked: rendering a let statement unwraps its name. */
    predicate Renderable() {
      LetStatement? ==> name.Some?
    }

    /** The rendering, as the source computes it. A program concatenates its
        statements' token literals (not their renderings); a let statement
        renders its value and then drops it, so the value never shows. */
    function String(): string
      requires Renderable()
    {
      match this
      case Program(statements) => Flatten(Literals(statements))
      case LetStatement(token, name, _) => token.literal + " " + name.value.value + " = "
      case ReturnStatement(token, returnValue) =>
        var out := token.literal + " ";
        if returnValue.Some? then out + returnValue.value.String() else out
      case ExpressionStatement(_, expression) =>
        if expression.Some? then expression.value.String() else ""
    }

    /** The derived deep copy: every owned sub-node is copied in turn. */
    function Clone(): Statement {
      match this
      case Program(statements) =>
        Program(seq(|statements|, i requires 0 <= i < |statements| => statements[i].Clone()))
      case LetStatement(token, name, value) =>
        LetStatement(token,
          if name.Some? then Some(name.value.Clone()) else None,
          if value.Some? then Some(value.value.Clone()) else None)
      case ReturnStatement(token, returnValue) =>
        ReturnStatement(token, if returnValue.Some? then Some(returnValue.value.Clone()) else None)
      case ExpressionStatement(token, expression) =>
        ExpressionStatement(token, if expression.Some? then Some(expression.value.Clone()) else None)
    }
  }

  /** The let rendering the source evidently intends: the value's rendering
      follows "<literal> <name> = " when there is a value. Statement.String
      keeps the rendering as written. */
  function IntendedLetString(s: Statement): (r: string)
    requires s.LetStatement? && s.name.Some?
    ensures s.String() <= r
    ensures s.value.Some? ==> r[|s.String()|..] == s.value.value.String()
    ensures s.value.None? ==> r == s.String()
  {
    var out := s.token.literal + " " + s.name.value.value + " = ";
    if s.value.Some? then out + s.value.value.String() else out
  }

  /** The token literal of each statement, in order. */
  function Literals(statements: seq<Statement>): (r: seq<string>)
    ensures |r| == |statements|
    ensures forall i :: 0 <= i < |statements| ==> r[i] == statements[i].TokenLiteral()
  {
    if statements == [] then [] else [statements[0].TokenLiteral()] + Literals(statements[1..])
  }

  /** The in-order concatenation of a sequence of strings. */
  function Flatten(parts: seq<string>): (r: string)
    ensures |r| == TotalLength(parts)
    ensures |parts| > 0 ==> parts[0] <= r
  {
    if parts == [] then "" else parts[0] + Flatten(parts[1..])
  }

  /** The sum of the lengths of a sequence of strings. */
  function TotalLength(parts: seq<string>): nat {
    if parts == [] then 0 else |parts[0]| + TotalLength(parts[1..])
  }

  lemma {:induction false} FlattenAppend(a: seq<string>, b: seq<string>)
    ensures Flatten(a + b) == Flatten(a) + Flatten(b)
  {
    if a != [] {
      assert (a + b)[0] == a[0];
      assert (a + b)[1..] == a[1..] + b;
      FlattenAppend(a[1..], b);
      assert Flatten(a + b) == a[0] + (Flatten(a[1..]) + Flatten(b));
    } else {
      assert a + b == b;
    }
  }

  lemma LiteralsAppend(a: seq<Statement>, b: seq<Statement>)
    ensures Literals(a + b) == Literals(a) + Literals(b)
  {
    assert Literals(a + b) == Literals(a) + Literals(b) by {
      var l, r := Literals(a + b), Literals(a) + Literals(b);
      assert |l| == |r|;
      forall i | 0 <= i < |l| ensures l[i] == r[i] {
        if i < |a| {
          assert (a + b)[i] == a[i];
        } else {
          assert (a + b)[i] == b[i - |a|];
        }
      }
    }
  }

  /** Program::string: a mutable buffer appended with each statement's token
      literal, in order, over a copy of the statement list. */
  method RenderProgram(statements: seq<Statement>) returns (rendered: string)
    ensures rendered == Program(statements).String()
    ensures |rendered| == TotalLength(Literals(statements))
  {
    rendered := "";
    for i := 0 to |statements|
      invariant rendered == Flatten(Literals(statements[..i]))
    {
      assert statements[..i + 1] == statements[..i] + [statements[i]];
      LiteralsAppend(statements[..i], [statements[i]]);
      assert Literals([statements[i]]) == [statements[i].TokenLiteral()];
      FlattenAppend(Literals(statements[..i]), [statements[i].TokenLiteral()]);
      assert Flatten([statements[i].TokenLiteral()]) == statements[i].TokenLiteral();
      rendered := rendered + statements[i].TokenLiteral();
    }
    assert statements[..|statements|] == statements;
  }
}
