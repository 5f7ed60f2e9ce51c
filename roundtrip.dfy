/**
 * The rendering of a statement read back by the lexer: a `let` or `return`
 * statement whose names are identifiers renders to text that scans to
 * exactly the tokens the statement was built from, and the parser, run
 * over that text, recovers the statement's name.
 */
module RoundTrip {
  import opened Wrappers
  import opened Tokens
  import opened Lexing
  import opened Ast
  import opened Parsing

  /** Text the lexer reads as one identifier token: a non-empty run of letters that is not a keyword. */
  predicate IsIdentifierText(s: string) {
    |s| > 0 && (forall k :: 0 <= k < |s| ==> IsLetter(s[k])) && !IsKeyword(s)
  }

  /** An identifier at the start of the input, followed by a character that ends it, is scanned as one identifier token. */
  lemma ScanLeadingIdentifier(name: string, rest: string)
    requires IsIdentifierText(name)
    requires |rest| > 0 && !IsLetter(rest[0])
    ensures Scan(name + rest, 0) == (Token(Tokens.Ident, name), |name|)
  {
    ScanLeadingWord(name, rest);
  }

  /** A word followed by a space scans to one token ending where the word does. */
  lemma WordThenSpace(w: string)
    requires IsWord(w)
    ensures TokenStream(w + " ", 0, 1) == [Token(Serialize(w), w)]
    ensures After(w + " ", 0, 1) == |w|
  {
    ScanLeadingWord(w, " ");
    StreamOne(w + " ", 0);
  }

  /** An identifier followed by a space scans to one identifier token ending where the identifier does. */
  lemma IdentifierThenSpace(name: string)
    requires IsIdentifierText(name)
    ensures TokenStream(name + " ", 0, 1) == [Token(Tokens.Ident, name)]
    ensures After(name + " ", 0, 1) == |name|
  {
    WordThenSpace(name);
  }

  /** An identifier followed by a semicolon scans to the identifier, the semicolon and end of file. */
  lemma IdentifierThenSemicolon(value: string)
    requires IsIdentifierText(value)
    ensures TokenStream(value + ";", 0, 3) == [Token(Tokens.Ident, value), Token(Semicolon, ";"), Token(Eof, " ")]
  {
    var input := value + ";";
    ScanLeadingIdentifier(value, ";");
    ScanPunct(input, |value|);
    ScanAtEnd(input, |value| + 1);
    StreamUnfold(input, 0, 2);
    StreamTwo(input, |value|);
  }

  lemma LetKeywordPiece()
    ensures TokenStream("let ", 0, 1) == [Token(Tokens.Let, "let")] && After("let ", 0, 1) == 3
  {
    WordThenSpace("let");
    assert "let" + " " == "let ";
  }

  lemma AssignPiece()
    ensures TokenStream("= ", 0, 1) == [Token(Assign, "=")] && After("= ", 0, 1) == 1
  {
    ScanAssignOrEq("= ", 0);
    StreamOne("= ", 0);
  }

  lemma ReturnKeywordPiece()
    ensures TokenStream("return ", 0, 1) == [Token(Tokens.Return, "return")] && After("return ", 0, 1) == 6
  {
    WordThenSpace("return");
    assert "return" + " " == "return ";
  }

  lemma SemicolonPiece()
    ensures TokenStream(";", 0, 2) == [Token(Semicolon, ";"), Token(Eof, " ")]
  {
    ScanPunct(";", 0);
    ScanAtEnd(";", 1);
    StreamTwo(";", 0);
  }

  lemma PrependToThree<T>(x: T, s: seq<T>)
    requires |s| == 3
    ensures [x] + s == [x, s[0], s[1], s[2]]
  {
  }

  lemma PrependToFour<T>(x: T, s: seq<T>)
    requires |s| == 4
    ensures [x] + s == [x, s[0], s[1], s[2], s[3]]
  {
  }

  lemma AssignValueText(v: string)
    requires IsIdentifierText(v)
    ensures TokenStream("= " + (v + ";"), 0, 4)
         == [Token(Assign, "="), Token(Tokens.Ident, v), Token(Semicolon, ";"), Token(Eof, " ")]
  {
    IdentifierThenSemicolon(v);
    AssignPiece();
    StreamConcat("= ", v + ";", 1, 3);
    PrependToThree(Token(Assign, "="), [Token(Tokens.Ident, v), Token(Semicolon, ";"), Token(Eof, " ")]);
  }

  lemma NameAssignValueText(n: string, v: string)
    requires IsIdentifierText(n) && IsIdentifierText(v)
    ensures TokenStream((n + " ") + ("= " + (v + ";")), 0, 5)
         == [Token(Tokens.Ident, n), Token(Assign, "="), Token(Tokens.Ident, v), Token(Semicolon, ";"), Token(Eof, " ")]
  {
    AssignValueText(v);
    IdentifierThenSpace(n);
    StreamConcat(n + " ", "= " + (v + ";"), 1, 4);
    PrependToFour(Token(Tokens.Ident, n), [Token(Assign, "="), Token(Tokens.Ident, v), Token(Semicolon, ";"), Token(Eof, " ")]);
  }

  lemma LetTextShape(n: string, v: string)
    ensures "let" + " " + n + " = " + v + ";" == "let " + ((n + " ") + ("= " + (v + ";")))
  {
    assert " = " == " " + "= ";
  }

  lemma PrependToFive<T>(x: T, s: seq<T>)
    requires |s| == 5
    ensures [x] + s == [x, s[0], s[1], s[2], s[3], s[4]]
  {
  }

  lemma LetText(n: string, v: string)
    requires IsIdentifierText(n) && IsIdentifierText(v)
    ensures TokenStream("let " + ((n + " ") + ("= " + (v + ";"))), 0, 6)
         == [Token(Tokens.Let, "let"), Token(Tokens.Ident, n), Token(Assign, "="),
             Token(Tokens.Ident, v), Token(Semicolon, ";"), Token(Eof, " ")]
  {
    var rest := (n + " ") + ("= " + (v + ";"));
    var tail := [Token(Tokens.Ident, n), Token(Assign, "="), Token(Tokens.Ident, v), Token(Semicolon, ";"), Token(Eof, " ")];
    NameAssignValueText(n, v);
    LetKeywordPiece();
    StreamConcat("let ", rest, 1, 5);
    PrependToFive(Token(Tokens.Let, "let"), tail);
  }

  /** `let <name> = <value>;`, rendered and lexed, gives back the statement's tokens and then end of file. */
  lemma LetStatementRoundTrip(letTok: Token, name: Identifier, value: Identifier)
    requires letTok == Token(Tokens.Let, "let")
    requires IsIdentifierText(name.value) && IsIdentifierText(value.value)
    ensures TokenStream(StatementString(LetStatement(letTok, name, Some(Expression.Ident(value)))), 0, 6)
         == [letTok, Token(Tokens.Ident, name.value), Token(Assign, "="),
             Token(Tokens.Ident, value.value), Token(Semicolon, ";"), Token(Eof, " ")]
    ensures name.token == Token(Tokens.Ident, name.value) && value.token == Token(Tokens.Ident, value.value) ==>
      TokenStream(StatementString(LetStatement(letTok, name, Some(Expression.Ident(value)))), 0, 6)
         == [letTok, name.token, Token(Assign, "="), value.token, Token(Semicolon, ";"), Token(Eof, " ")]
  {
    LetTextShape(name.value, value.value);
    LetText(name.value, value.value);
  }

  lemma ReturnText(v: string)
    requires IsIdentifierText(v)
    ensures TokenStream("return " + (v + ";"), 0, 4)
         == [Token(Tokens.Return, "return"), Token(Tokens.Ident, v), Token(Semicolon, ";"), Token(Eof, " ")]
  {
    IdentifierThenSemicolon(v);
    ReturnKeywordPiece();
    StreamConcat("return ", v + ";", 1, 3);
    PrependToThree(Token(Tokens.Return, "return"), [Token(Tokens.Ident, v), Token(Semicolon, ";"), Token(Eof, " ")]);
  }

  lemma ReturnTextShape(retTok: Token, value: Identifier)
    requires retTok == Token(Tokens.Return, "return")
    ensures StatementString(ReturnStatement(retTok, Some(Expression.Ident(value)))) == "return " + (value.value + ";")
  {
  }

  /** `return <value>;`, rendered and lexed, gives back the statement's tokens and then end of file. */
  lemma ReturnStatementRoundTrip(retTok: Token, value: Identifier)
    requires retTok == Token(Tokens.Return, "return")
    requires IsIdentifierText(value.value)
    ensures TokenStream(StatementString(ReturnStatement(retTok, Some(Expression.Ident(value)))), 0, 4)
         == [retTok, Token(Tokens.Ident, value.value), Token(Semicolon, ";"), Token(Eof, " ")]
    ensures value.token == Token(Tokens.Ident, value.value) ==>
      TokenStream(StatementString(ReturnStatement(retTok, Some(Expression.Ident(value)))), 0, 4)
         == [retTok, value.token, Token(Semicolon, ";"), Token(Eof, " ")]
  {
    ReturnTextShape(retTok, value);
    ReturnText(value.value);
  }

  lemma EmptyReturnText()
    ensures TokenStream("return " + ";", 0, 3) == [Token(Tokens.Return, "return"), Token(Semicolon, ";"), Token(Eof, " ")]
  {
    SemicolonPiece();
    ReturnKeywordPiece();
    StreamConcat("return ", ";", 1, 2);
  }

  /** A `return` statement with no value renders to `return ;`, which lexes to the keyword and the semicolon. */
  lemma EmptyReturnRoundTrip(retTok: Token)
    requires retTok == Token(Tokens.Return, "return")
    ensures TokenStream(StatementString(ReturnStatement(retTok, None)), 0, 3)
         == [retTok, Token(Semicolon, ";"), Token(Eof, " ")]
  {
    assert StatementString(ReturnStatement(retTok, None)) == "return " + ";";
    EmptyReturnText();
  }

  /** The first three tokens of a stream of six. */
  lemma OpeningOfSix(t: string, s: seq<Token>)
    requires |s| == 6 && TokenStream(t, 0, 6) == s
    ensures TokenStream(t, 0, 3) == s[..3]
  {
    StreamSplit(t, 0, 3, 3);
  }

  lemma LetTextAscii(n: string, v: string)
    requires IsIdentifierText(n) && IsIdentifierText(v)
    ensures IsAscii("let" + " " + n + " = " + v + ";")
  {
  }

  /** The rendered text is ASCII and its first three tokens are the keyword, the name and `=`. */
  lemma RenderedLetOpening(name: Identifier, value: Identifier)
    requires IsIdentifierText(name.value) && IsIdentifierText(value.value)
    ensures IsAscii(StatementString(LetStatement(Token(Tokens.Let, "let"), name, Some(Expression.Ident(value)))))
    ensures TokenStream(StatementString(LetStatement(Token(Tokens.Let, "let"), name, Some(Expression.Ident(value)))), 0, 3)
         == [Token(Tokens.Let, "let"), Token(Tokens.Ident, name.value), Token(Assign, "=")]
  {
    var letTok := Token(Tokens.Let, "let");
    LetTextAscii(name.value, value.value);
    LetStatementRoundTrip(letTok, name, value);
    OpeningOfSix(StatementString(LetStatement(letTok, name, Some(Expression.Ident(value)))),
                 [letTok, Token(Tokens.Ident, name.value), Token(Assign, "="),
                  Token(Tokens.Ident, value.value), Token(Semicolon, ";"), Token(Eof, " ")]);
  }

  /**
   * A fresh lexer over `text` handed to a fresh parser, which then parses a
   * `let` statement: the outcome is decided by the second and third tokens
   * of the text's stream.
   */
  method ParseLetFrom(text: string) returns (r: LetOutcome)
    requires IsAscii(text)
    ensures var ts := TokenStream(text, 0, 3);
      r == if ts[1].typ != Tokens.Ident || ts[2].typ != Assign then Rejected
           else Unfinished(LetStatement(ts[0], Identifier(ts[1], ts[1].literal), None))
  {
    StreamStep(text, 0, 2);
    var lexer := new Lexer(text);
    var parser := new Parser(lexer);
    r := parser.ParseLetStatement();
  }

  /**
   * Rendering a `let` statement and parsing the text again: the parser gets
   * past both of its checks and holds the keyword token and the name's text,
   * with the identifier token the lexer made for it; when the name carries
   * that same token, the parser holds exactly the name it was given.
   */
  method ParseRenderedLet(name: Identifier, value: Identifier) returns (r: LetOutcome)
    requires IsIdentifierText(name.value) && IsIdentifierText(value.value)
    ensures r == Unfinished(LetStatement(Token(Tokens.Let, "let"),
                                         Identifier(Token(Tokens.Ident, name.value), name.value), None))
    ensures name.token == Token(Tokens.Ident, name.value) ==>
      r == Unfinished(LetStatement(Token(Tokens.Let, "let"), name, None))
  {
    RenderedLetOpening(name, value);
    r := ParseLetFrom(StatementString(LetStatement(Token(Tokens.Let, "let"), name, Some(Expression.Ident(value)))));
  }
}
