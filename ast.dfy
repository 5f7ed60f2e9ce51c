/**
 * Syntax tree of the Monkey front end and its two views of a node: the
 * literal of the token that starts it and its rendering back to text.
 * Rendering is defined by the mutually recursive functions below; the two
 * loops of the source (rendering a program and rendering a block) are the
 * methods `ProgramString` and `BlockString`, proved against those functions.
 */
module Ast {
  import opened Tokens
  import opened Wrappers

  /** A name: the identifier token and the name's text. */
  datatype Identifier = Identifier(token: Token, value: string)

  /** The expression variants; the boxed children of the source are plain sub-terms here. */
  datatype Expression =
    | Ident(id: Identifier)
    | Integer(itoken: Token, ivalue: int)
    | Prefix(ptoken: Token, poperator: string, pright: Expression)
    | Infix(xtoken: Token, left: Expression, xoperator: string, right: Expression)
    | Boolean(btoken: Token, bvalue: bool)
    | If(ftoken: Token, condition: Expression, consequence: BlockStatement, alternative: Option<BlockStatement>)

  /** The statement variants; the source's nullable expression is an `Option`. */
  datatype Statement =
    | LetStatement(ltoken: Token, name: Identifier, value: Option<Expression>)
    | ReturnStatement(rtoken: Token, returnValue: Option<Expression>)
    | ExpressionStatement(etoken: Token, expression: Option<Expression>)

  /** A braced block: the `{` token and the statements inside it. */
  datatype BlockStatement = BlockStatement(token: Token, statements: seq<Statement>)

  /** The root node. */
  datatype Program = Program(statements: seq<Statement>)

  /** The text a `let` or `return` statement shows for its value: an identifier's name, nothing otherwise. */
  function ShownValue(v: Option<Expression>): (s: string)
    ensures v.Some? && v.value.Ident? ==> s == v.value.id.value
    ensures !(v.Some? && v.value.Ident?) ==> s == ""
  {
    if v.Some? && v.value.Ident? then v.value.id.value else ""
  }

  /** Rendering of an expression. */
  function ExpressionString(e: Expression): string
    decreases e, 1
  {
    match e
    case Ident(id) => id.value
    case Integer(tok, _) => tok.literal
    case Prefix(_, op, r) => "(" + op + ExpressionString(r) + ")"
    case Infix(_, l, op, r) => "(" + ExpressionString(l) + " " + op + " " + ExpressionString(r) + ")"
    case Boolean(tok, _) => tok.literal
    case If(_, c, cons, alt) =>
      "if" + ExpressionString(c) + " " + BlockStatementString(cons)
      + (if alt.Some? then "else " + BlockStatementString(alt.value) else "")
  }

  /** Rendering of a block: its statements' renderings, in order, with nothing between them. */
  function BlockStatementString(b: BlockStatement): string
    decreases b, 1
  {
    StatementsString(b.statements)
  }

  /** Rendering of a statement. */
  function StatementString(s: Statement): string
    decreases s, 1
  {
    match s
    case LetStatement(tok, name, v) => tok.literal + " " + name.value + " = " + ShownValue(v) + ";"
    case ReturnStatement(tok, v) => tok.literal + " " + ShownValue(v) + ";"
    case ExpressionStatement(_, v) => if v.Some? then ExpressionString(v.value) else ""
  }

  /** The concatenation of the renderings of `ss`, built front to back as the source's loops do. */
  function StatementsString(ss: seq<Statement>): string
    decreases ss, 0
  {
    if |ss| == 0 then "" else StatementsString(ss[..|ss| - 1]) + StatementString(ss[|ss| - 1])
  }

  /** Rendering of a program. */
  function ProgramText(p: Program): string {
    StatementsString(p.statements)
  }

  /** `StatementVariant::token_literal`: the keyword of a `let` or `return` statement; the source has no case for an expression statement (it panics). */
  function StatementTokenLiteral(s: Statement): (r: string)
    requires !s.ExpressionStatement?
    ensures s.LetStatement? ==> r == KeywordSpelling(Tokens.Let)
    ensures s.ReturnStatement? ==> r == KeywordSpelling(Tokens.Return)
  {
    match s
    case LetStatement(_, _, _) => "let"
    case ReturnStatement(_, _) => "return"
  }

  /** `Program::token_literal`: the first statement's token literal, or a single space for an empty program. */
  function ProgramTokenLiteral(p: Program): (r: string)
    requires |p.statements| > 0 ==> !p.statements[0].ExpressionStatement?
    ensures |p.statements| == 0 ==> r == " "
    ensures |p.statements| > 0 ==> r == StatementTokenLiteral(p.statements[0])
  {
    if |p.statements| > 0 then StatementTokenLiteral(p.statements[0]) else " "
  }

  /** `Program::string`: appends each statement's rendering in turn. */
  method ProgramString(p: Program) returns (out: string)
    ensures out == ProgramText(p)
  {
    out := "";
    for i := 0 to |p.statements|
      invariant out == StatementsString(p.statements[..i])
    {
      assert p.statements[..i + 1][..i] == p.statements[..i];
      out := out + StatementString(p.statements[i]);
    }
    assert p.statements[..|p.statements|] == p.statements;
  }

  /** `BlockStatement::string`: appends each inner statement's rendering in turn. */
  method BlockString(b: BlockStatement) returns (out: string)
    ensures out == BlockStatementString(b)
  {
    out := "";
    for i := 0 to |b.statements|
      invariant out == StatementsString(b.statements[..i])
    {
      assert b.statements[..i + 1][..i] == b.statements[..i];
      out := out + StatementString(b.statements[i]);
    }
    assert b.statements[..|b.statements|] == b.statements;
  }

  /** Rendering a sequence of statements is a homomorphism from concatenation of sequences to concatenation of text. */
  lemma {:induction false} StatementsConcat(a: seq<Statement>, b: seq<Statement>)
    ensures StatementsString(a + b) == StatementsString(a) + StatementsString(b)
    decreases |b|
  {
    if |b| == 0 {
      assert a + b == a;
    } else {
      LastOfConcat(a, b);
      StatementsConcat(a, b[..|b| - 1]);
    }
  }

  /** The last element of `a + b` is that of `b`, and what precedes it is `a` followed by the rest of `b`. */
  lemma LastOfConcat<T>(a: seq<T>, b: seq<T>)
    requires |b| > 0
    ensures (a + b)[..|a + b| - 1] == a + b[..|b| - 1]
    ensures (a + b)[|a + b| - 1] == b[|b| - 1]
  {
    assert (a + b)[..|a + b| - 1] == a + b[..|b| - 1];
  }

  /** Read front to back: a program's text is its first statement's text followed by the rest's. */
  lemma StatementsCons(s: Statement, ss: seq<Statement>)
    ensures StatementsString([s] + ss) == StatementString(s) + StatementsString(ss)
  {
    StatementsConcat([s], ss);
    assert StatementsString([s]) == StatementsString([]) + StatementString(s);
  }

  /**
   * The token literal of a `let` or `return` statement whose keyword token
   * is spelled as usual is the start of the statement's rendering, and the
   * keyword table reads it back as the statement's kind.
   */
  lemma StatementTokenLiteralPrefix(s: Statement)
    requires s.LetStatement? ==> s.ltoken.literal == "let"
    requires s.ReturnStatement? ==> s.rtoken.literal == "return"
    requires !s.ExpressionStatement?
    ensures StatementTokenLiteral(s) <= StatementString(s)
    ensures Serialize(StatementTokenLiteral(s)) == if s.LetStatement? then Tokens.Let else Tokens.Return
  {
  }

  /** A program's token literal is the start of its text when its first statement's keyword token is spelled as usual. */
  lemma ProgramTokenLiteralPrefix(p: Program)
    requires |p.statements| > 0 && !p.statements[0].ExpressionStatement?
    requires p.statements[0].LetStatement? ==> p.statements[0].ltoken.literal == "let"
    requires p.statements[0].ReturnStatement? ==> p.statements[0].rtoken.literal == "return"
    ensures ProgramTokenLiteral(p) <= ProgramText(p)
  {
    var s := p.statements[0];
    StatementsCons(s, p.statements[1..]);
    assert [s] + p.statements[1..] == p.statements;
    StatementTokenLiteralPrefix(s);
  }

  /** Empty program: no text, and a single space as its token literal. */
  lemma EmptyProgram()
    ensures ProgramText(Program([])) == ""
    ensures ProgramTokenLiteral(Program([])) == " "
  {
  }

  /** A `let` or `return` statement whose value is not an identifier shows no value: rendering forgets it. */
  lemma NonIdentValueForgotten(tok: Token, name: Identifier, v: Option<Expression>, w: Option<Expression>)
    requires !(v.Some? && v.value.Ident?) && !(w.Some? && w.value.Ident?)
    ensures StatementString(LetStatement(tok, name, v)) == StatementString(LetStatement(tok, name, w))
    ensures StatementString(LetStatement(tok, name, v)) == tok.literal + " " + name.value + " = ;"
    ensures StatementString(ReturnStatement(tok, v)) == StatementString(ReturnStatement(tok, w)) == tok.literal + " ;"
  {
  }

  /** The program built by hand in tests/ast_test.rs renders as `let myVar = anotherVar;`. */
  lemma LetProgramRendering()
    ensures ProgramText(Program([LetStatement(Token(Tokens.Let, "let"),
                                    Identifier(Token(Tokens.Ident, "myVar"), "myVar"),
                                    Some(Expression.Ident(Identifier(Token(Tokens.Ident, "anotherVar"), "anotherVar"))))]))
         == "let myVar = anotherVar;"
  {
  }

  /**
   * Prefix and infix expressions render wrapped in one pair of parentheses,
   * and a conditional renders starting with `if`.
   */
  lemma ExpressionRenderingShape(e: Expression)
    ensures var s := ExpressionString(e);
      && ((e.Prefix? || e.Infix?) ==> |s| >= 2 && s[0] == '(' && s[|s| - 1] == ')')
      && (e.If? ==> |s| >= 3 && s[..2] == "if")
  {
  }

  // Parenthesis balance of the rendering.

  /** Text with no parenthesis in it. */
  predicate ParenFree(s: string) {
    '(' !in s && ')' !in s
  }

  /** Number of opening minus closing parentheses in `s`. */
  function ParenBalance(s: string): int {
    multiset(s)['('] as int - multiset(s)[')'] as int
  }

  /** Every name, literal and operator in the expression is free of parentheses. */
  predicate ExpressionLeavesParenFree(e: Expression)
    decreases e, 1
  {
    match e
    case Ident(id) => ParenFree(id.value)
    case Integer(tok, _) => ParenFree(tok.literal)
    case Prefix(_, op, r) => ParenFree(op) && ExpressionLeavesParenFree(r)
    case Infix(_, l, op, r) => ParenFree(op) && ExpressionLeavesParenFree(l) && ExpressionLeavesParenFree(r)
    case Boolean(tok, _) => ParenFree(tok.literal)
    case If(_, c, cons, alt) =>
      ExpressionLeavesParenFree(c) && StatementsLeavesParenFree(cons.statements)
      && (alt.Some? ==> StatementsLeavesParenFree(alt.value.statements))
  }

  /** Every name, literal and operator in the statement is free of parentheses. */
  predicate StatementLeavesParenFree(s: Statement)
    decreases s, 1
  {
    match s
    case LetStatement(tok, name, v) => ParenFree(tok.literal) && ParenFree(name.value) && ParenFree(ShownValue(v))
    case ReturnStatement(tok, v) => ParenFree(tok.literal) && ParenFree(ShownValue(v))
    case ExpressionStatement(_, v) => v.Some? ==> ExpressionLeavesParenFree(v.value)
  }

  /** Every statement of `ss` has parenthesis-free leaves. */
  predicate StatementsLeavesParenFree(ss: seq<Statement>)
    decreases ss, 0
  {
    |ss| > 0 ==> StatementsLeavesParenFree(ss[..|ss| - 1]) && StatementLeavesParenFree(ss[|ss| - 1])
  }

  lemma ParenBalanceConcat(a: string, b: string)
    ensures ParenBalance(a + b) == ParenBalance(a) + ParenBalance(b)
  {
    assert multiset(a + b) == multiset(a) + multiset(b);
  }

  lemma ParenFreeBalance(s: string)
    requires ParenFree(s)
    ensures ParenBalance(s) == 0
  {
    assert '(' !in multiset(s) && ')' !in multiset(s);
  }

  lemma PrefixTextBalanced(op: string, r: string)
    requires ParenFree(op) && ParenBalance(r) == 0
    ensures ParenBalance("(" + op + r + ")") == 0
  {
    ParenFreeBalance(op);
    ParenBalanceConcat("(", op);
    ParenBalanceConcat("(" + op, r);
    ParenBalanceConcat("(" + op + r, ")");
  }

  lemma InfixTextBalanced(l: string, op: string, r: string)
    requires ParenFree(op) && ParenBalance(l) == 0 && ParenBalance(r) == 0
    ensures ParenBalance("(" + l + " " + op + " " + r + ")") == 0
  {
    ParenFreeBalance(op);
    ParenBalanceConcat("(", l);
    ParenBalanceConcat("(" + l, " ");
    ParenBalanceConcat("(" + l + " ", op);
    ParenBalanceConcat("(" + l + " " + op, " ");
    ParenBalanceConcat("(" + l + " " + op + " ", r);
    ParenBalanceConcat("(" + l + " " + op + " " + r, ")");
  }

  lemma IfTextBalanced(c: string, cons: string, alt: Option<string>)
    requires ParenBalance(c) == 0 && ParenBalance(cons) == 0
    requires alt.Some? ==> ParenBalance(alt.value) == 0
    ensures ParenBalance("if" + c + " " + cons + (if alt.Some? then "else " + alt.value else "")) == 0
  {
    var tail := if alt.Some? then "else " + alt.value else "";
    if alt.Some? {
      ParenBalanceConcat("else ", alt.value);
    }
    IfHeadBalanced(c, cons, tail);
  }

  /** The `if` form around a balanced condition, consequence and tail. */
  lemma IfHeadBalanced(c: string, cons: string, tail: string)
    requires ParenBalance(c) == 0 && ParenBalance(cons) == 0 && ParenBalance(tail) == 0
    ensures ParenBalance("if" + c + " " + cons + tail) == 0
  {
    ParenBalanceConcat("if", c);
    ParenBalanceConcat("if" + c, " ");
    ParenBalanceConcat("if" + c + " ", cons);
    ParenBalanceConcat("if" + c + " " + cons, tail);
  }

  /** Prefix and infix expressions are fully parenthesised: with parenthesis-free leaves, the rendering has as many `(` as `)`. */
  lemma {:induction false} ExpressionBalanced(e: Expression)
    requires ExpressionLeavesParenFree(e)
    ensures ParenBalance(ExpressionString(e)) == 0
    decreases e, 1
  {
    match e
    case Ident(id) => ParenFreeBalance(id.value);
    case Integer(tok, _) => ParenFreeBalance(tok.literal);
    case Boolean(tok, _) => ParenFreeBalance(tok.literal);
    case Prefix(_, op, r) =>
      ExpressionBalanced(r);
      PrefixTextBalanced(op, ExpressionString(r));
    case Infix(_, l, op, r) =>
      ExpressionBalanced(l);
      ExpressionBalanced(r);
      InfixTextBalanced(ExpressionString(l), op, ExpressionString(r));
    case If(_, c, cons, alt) =>
      ExpressionBalanced(c);
      StatementsBalanced(cons.statements);
      if alt.Some? {
        StatementsBalanced(alt.value.statements);
        IfTextBalanced(ExpressionString(c), BlockStatementString(cons), Some(BlockStatementString(alt.value)));
      } else {
        IfTextBalanced(ExpressionString(c), BlockStatementString(cons), None);
      }
  }

  lemma LetTextBalanced(kw: string, name: string, v: string)
    requires ParenFree(kw) && ParenFree(name) && ParenFree(v)
    ensures ParenBalance(kw + " " + name + " = " + v + ";") == 0
  {
    ParenFreeBalance(kw);
    ParenFreeBalance(name);
    ParenFreeBalance(v);
    ParenBalanceConcat(kw, " ");
    ParenBalanceConcat(kw + " ", name);
    ParenBalanceConcat(kw + " " + name, " = ");
    ParenBalanceConcat(kw + " " + name + " = ", v);
    ParenBalanceConcat(kw + " " + name + " = " + v, ";");
  }

  lemma ReturnTextBalanced(kw: string, v: string)
    requires ParenFree(kw) && ParenFree(v)
    ensures ParenBalance(kw + " " + v + ";") == 0
  {
    ParenFreeBalance(kw);
    ParenFreeBalance(v);
    ParenBalanceConcat(kw, " ");
    ParenBalanceConcat(kw + " ", v);
    ParenBalanceConcat(kw + " " + v, ";");
  }

  /** A statement with parenthesis-free leaves renders with balanced parentheses. */
  lemma {:induction false} StatementBalanced(s: Statement)
    requires StatementLeavesParenFree(s)
    ensures ParenBalance(StatementString(s)) == 0
    decreases s, 1
  {
    match s
    case LetStatement(tok, name, v) => LetTextBalanced(tok.literal, name.value, ShownValue(v));
    case ReturnStatement(tok, v) => ReturnTextBalanced(tok.literal, ShownValue(v));
    case ExpressionStatement(_, v) =>
      if v.Some? {
        ExpressionBalanced(v.value);
      }
  }

  /** A sequence of statements with parenthesis-free leaves renders with balanced parentheses. */
  lemma {:induction false} StatementsBalanced(ss: seq<Statement>)
    requires StatementsLeavesParenFree(ss)
    ensures ParenBalance(StatementsString(ss)) == 0
    decreases ss, 0
  {
    if |ss| > 0 {
      StatementsBalanced(ss[..|ss| - 1]);
      StatementBalanced(ss[|ss| - 1]);
      ParenBalanceConcat(StatementsString(ss[..|ss| - 1]), StatementString(ss[|ss| - 1]));
    }
  }
}
