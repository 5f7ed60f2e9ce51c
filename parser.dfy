/**
 * The parser's cursor: a window of two tokens (current and peek) over the
 * token stream of an owned lexer, and the part of `parse_let_statement`
 * that the source implements (the checks for a name and for `=`).
 */
module Parsing {
  import opened Wrappers
  import opened Tokens
  import opened Lexing
  import opened Ast

  /**
   * What `parse_let_statement` comes to: `Rejected` is its `None`;
   * `Unfinished` is the statement it has built when it reaches the
   * unimplemented remainder (the source stops there with `todo!()`).
   */
  datatype LetOutcome = Rejected | Unfinished(partial: Statement)

  class Parser {
    const lexer: Lexer
    var currentToken: Token
    var peekToken: Token

    /** Where the lexer stood when the parser took it over. */
    ghost const start: nat
    /** How many tokens the parser has asked the lexer for. */
    ghost var consumed: nat

    /**
     * The window is always the two most recent tokens of the lexer's stream
     * from `start`, and the lexer stands where those tokens end.
     */
    ghost predicate Valid()
      reads this, lexer
    {
      && lexer.Valid()
      && consumed >= 2
      && lexer.position == After(lexer.input, start, consumed)
      && currentToken == TokenStream(lexer.input, start, consumed)[consumed - 2]
      && peekToken == TokenStream(lexer.input, start, consumed)[consumed - 1]
    }

    /** `Parser::new`: starts from two illegal tokens and calls `next_token` twice, loading the first two tokens of the lexer. */
    constructor (lexer: Lexer)
      requires lexer.Valid()
      modifies lexer
      ensures this.lexer == lexer && Valid()
      ensures start == old(lexer.position) && consumed == 2
      ensures [currentToken, peekToken] == TokenStream(lexer.input, old(lexer.position), 2)
    {
      ghost var s0 := lexer.position;
      var current := NewToken(Illegal, ' ');
      var peek := NewToken(Illegal, ' ');
      current := peek;
      peek := lexer.NextToken();
      current := peek;
      peek := lexer.NextToken();
      StreamTwo(lexer.input, s0);
      this.lexer := lexer;
      currentToken := current;
      peekToken := peek;
      start := s0;
      consumed := 2;
    }

    /** `next_token`: the peek token becomes current and the lexer supplies the next one. */
    method NextToken()
      requires Valid()
      modifies this, lexer
      ensures Valid() && consumed == old(consumed) + 1
      ensures currentToken == old(peekToken)
      ensures (peekToken, lexer.position) == Scan(lexer.input, old(lexer.position))
    {
      currentToken := peekToken;
      peekToken := lexer.NextToken();
      StreamStep(lexer.input, start, consumed);
      consumed := consumed + 1;
    }

    /** `current_token_is`: compares the kind of the current token, not its literal. */
    function CurrentTokenIs(t: TokenType): (b: bool)
      reads this
      ensures b <==> currentToken.typ == t
    {
      currentToken.typ == t
    }

    /** `peek_token_is`: compares the kind of the peek token, not its literal. */
    function PeekTokenIs(t: TokenType): (b: bool)
      reads this
      ensures b <==> peekToken.typ == t
    {
      peekToken.typ == t
    }

    /** `expect_peek`: advances exactly when the peek token has kind `t`; otherwise nothing changes. */
    method ExpectPeek(t: TokenType) returns (ok: bool)
      requires Valid()
      modifies this, lexer
      ensures Valid()
      ensures ok == old(PeekTokenIs(t))
      ensures ok ==> && consumed == old(consumed) + 1
                     && currentToken == old(peekToken) && CurrentTokenIs(t)
                     && (peekToken, lexer.position) == Scan(lexer.input, old(lexer.position))
      ensures !ok ==> unchanged(this) && unchanged(lexer)
    {
      if PeekTokenIs(t) {
        NextToken();
        ok := true;
      } else {
        ok := false;
      }
    }

    /**
     * `parse_let_statement` up to its unimplemented remainder: without a name
     * after `let` it rejects in place; with a name but no `=` it rejects having
     * stepped onto the name; otherwise it has the statement's keyword token and
     * name, and stands on the `=`.
     */
    method ParseLetStatement() returns (r: LetOutcome)
      requires Valid()
      modifies this, lexer
      ensures Valid()
      ensures old(peekToken).typ != Tokens.Ident ==> r == Rejected && unchanged(this) && unchanged(lexer)
      ensures old(peekToken).typ == Tokens.Ident && Scan(lexer.input, old(lexer.position)).0.typ != Assign ==>
        && r == Rejected
        && consumed == old(consumed) + 1
        && currentToken == old(peekToken)
        && (peekToken, lexer.position) == Scan(lexer.input, old(lexer.position))
      ensures old(peekToken).typ == Tokens.Ident && Scan(lexer.input, old(lexer.position)).0.typ == Assign ==>
        && r == Unfinished(LetStatement(old(currentToken), Identifier(old(peekToken), old(peekToken).literal), None))
        && consumed == old(consumed) + 2
        && currentToken == Scan(lexer.input, old(lexer.position)).0
        && currentToken.typ == Assign
    {
      var letToken := currentToken;
      var name := Identifier(currentToken, currentToken.literal);
      var ok := ExpectPeek(Tokens.Ident);
      if !ok {
        return Rejected;
      }
      name := Identifier(currentToken, currentToken.literal);
      ok := ExpectPeek(Assign);
      if !ok {
        return Rejected;
      }
      r := Unfinished(LetStatement(letToken, name, None));
    }
  }
}
