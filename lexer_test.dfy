/**
 * The lexer test `test_next_token` (tests/lexer_test.rs) stated on the model.
 * The test's input is written here as the concatenation of small pieces, one
 * or a few tokens each with the whitespace that follows them; each piece is a
 * `Segment` on its own, and `SegmentConcat` joins them.
 */
module LexerTest {
  import opened Tokens
  import opened Lexing

  lemma Piece1_1()
    ensures Segment("let ", 1, [Token(Let, "let")])
  {
    assert Serialize("let") == Let;
    WordSpace("let", ' ');
    assert "let" + [' '] == "let ";
  }

  lemma Piece1_2()
    ensures Segment("testing ", 1, [Token(Ident, "testing")])
  {
    assert Serialize("testing") == Ident;
    WordSpace("testing", ' ');
    assert "testing" + [' '] == "testing ";
  }

  lemma Piece1_3()
    ensures Segment("= ", 1, [Token(Assign, "=")])
  {
    StreamOne("= ", 0);
  }

  lemma Piece1_4()
    ensures Segment("5;", 2, [Token(Int, "5"), Token(Semicolon, ";")])
  {
    assert PunctKind(';') == Semicolon;
    NumberPunct("5", ';');
    assert "5" + [';'] == "5;";
  }

  lemma Piece1_5()
    ensures Segment("\n        ", 0, [])
  {
  }

  lemma Piece2_2()
    ensures Segment("add ", 1, [Token(Ident, "add")])
  {
    assert Serialize("add") == Ident;
    WordSpace("add", ' ');
    assert "add" + [' '] == "add ";
  }

  lemma Piece2_4()
    ensures Segment("fn(", 2, [Token(Function, "fn"), Token(LParen, "(")])
  {
    assert Serialize("fn") == Function;
    assert PunctKind('(') == LParen;
    WordPunct("fn", '(');
    assert "fn" + ['('] == "fn(";
  }

  lemma Piece2_5()
    ensures Segment("x,", 2, [Token(Ident, "x"), Token(Comma, ",")])
  {
    assert Serialize("x") == Ident;
    assert PunctKind(',') == Comma;
    WordPunct("x", ',');
    assert "x" + [','] == "x,";
  }

  lemma Piece2_6()
    ensures Segment("y)", 2, [Token(Ident, "y"), Token(RParen, ")")])
  {
    assert Serialize("y") == Ident;
    assert PunctKind(')') == RParen;
    WordPunct("y", ')');
    assert "y" + [')'] == "y)";
  }

  lemma Piece2_7()
    ensures Segment(" ", 0, [])
  {
  }

  lemma Piece2_8()
    ensures Segment("{", 1, [Token(LBrace, "{")])
  {
    assert PunctKind('{') == LBrace;
    PunctAlone('{');
  }

  lemma Piece2_9()
    ensures Segment("\n            ", 0, [])
  {
  }

  lemma Piece3_1()
    ensures Segment("x ", 1, [Token(Ident, "x")])
  {
    assert Serialize("x") == Ident;
    WordSpace("x", ' ');
    assert "x" + [' '] == "x ";
  }

  lemma Piece3_2()
    ensures Segment("+", 1, [Token(Plus, "+")])
  {
    assert PunctKind('+') == Plus;
    PunctAlone('+');
  }

  lemma Piece3_4()
    ensures Segment("y;", 2, [Token(Ident, "y"), Token(Semicolon, ";")])
  {
    assert Serialize("y") == Ident;
    assert PunctKind(';') == Semicolon;
    WordPunct("y", ';');
    assert "y" + [';'] == "y;";
  }

  lemma Piece4_1()
    ensures Segment("}", 1, [Token(RBrace, "}")])
  {
    assert PunctKind('}') == RBrace;
    PunctAlone('}');
  }

  lemma Piece4_2()
    ensures Segment(";", 1, [Token(Semicolon, ";")])
  {
    assert PunctKind(';') == Semicolon;
    PunctAlone(';');
  }

  lemma Piece4_3()
    ensures Segment("\n\n        ", 0, [])
  {
  }

  lemma Piece6_1()
    ensures Segment("!-", 2, [Token(Bang, "!"), Token(Minus, "-")])
  {
    StreamTwo("!-", 0);
  }

  lemma Piece6_2()
    ensures Segment("/", 1, [Token(Slash, "/")])
  {
    assert PunctKind('/') == Slash;
    PunctAlone('/');
  }

  lemma Piece6_3()
    ensures Segment("*", 1, [Token(Asterisk, "*")])
  {
    assert PunctKind('*') == Asterisk;
    PunctAlone('*');
  }

  lemma Piece8_1()
    ensures Segment("5 ", 1, [Token(Int, "5")])
  {
    NumberSpace("5", ' ');
    assert "5" + [' '] == "5 ";
  }

  lemma Piece8_2()
    ensures Segment("<", 1, [Token(Lt, "<")])
  {
    assert PunctKind('<') == Lt;
    PunctAlone('<');
  }

  lemma Piece8_4()
    ensures Segment("10 ", 1, [Token(Int, "10")])
  {
    NumberSpace("10", ' ');
    assert "10" + [' '] == "10 ";
  }

  lemma Piece8_5()
    ensures Segment(">", 1, [Token(Gt, ">")])
  {
    assert PunctKind('>') == Gt;
    PunctAlone('>');
  }

  lemma Piece10_1()
    ensures Segment("if ", 1, [Token(If, "if")])
  {
    assert Serialize("if") == If;
    WordSpace("if", ' ');
    assert "if" + [' '] == "if ";
  }

  lemma Piece10_2()
    ensures Segment("(", 1, [Token(LParen, "(")])
  {
    assert PunctKind('(') == LParen;
    PunctAlone('(');
  }

  lemma Piece10_6()
    ensures Segment("10)", 2, [Token(Int, "10"), Token(RParen, ")")])
  {
    assert PunctKind(')') == RParen;
    NumberPunct("10", ')');
    assert "10" + [')'] == "10)";
  }

  lemma Piece11_1()
    ensures Segment("return ", 1, [Token(Return, "return")])
  {
    assert Serialize("return") == Return;
    WordSpace("return", ' ');
    assert "return" + [' '] == "return ";
  }

  lemma Piece11_2()
    ensures Segment("true;", 2, [Token(True, "true"), Token(Semicolon, ";")])
  {
    assert Serialize("true") == True;
    assert PunctKind(';') == Semicolon;
    WordPunct("true", ';');
    assert "true" + [';'] == "true;";
  }

  lemma Piece12_3()
    ensures Segment("else ", 1, [Token(Else, "else")])
  {
    assert Serialize("else") == Else;
    WordSpace("else", ' ');
    assert "else" + [' '] == "else ";
  }

  lemma Piece13_2()
    ensures Segment("false;", 2, [Token(False, "false"), Token(Semicolon, ";")])
  {
    assert Serialize("false") == False;
    assert PunctKind(';') == Semicolon;
    WordPunct("false", ';');
    assert "false" + [';'] == "false;";
  }

  lemma Piece16_2()
    ensures Segment("== ", 1, [Token(Eq, "==")])
  {
    StreamOne("== ", 0);
  }

  lemma Piece16_3()
    ensures Segment("10;", 2, [Token(Int, "10"), Token(Semicolon, ";")])
  {
    assert PunctKind(';') == Semicolon;
    NumberPunct("10", ';');
    assert "10" + [';'] == "10;";
  }

  lemma Piece17_2()
    ensures Segment("!= ", 1, [Token(NotEq, "!=")])
  {
    StreamOne("!= ", 0);
  }

  lemma FinalPiece()
    ensures TokenStream("9", 0, 2) == [Token(Int, "9"), Token(Eof, " ")]
  {
    RunEndAt("9", 0, 1, IsDigit);
    assert "9"[0..1] == "9";
    StreamTwo("9", 0);
  }

  /** Line 1 of the test input (tests/lexer_test.rs:23), with the whitespace that follows it. */
  const Line1: string := "let " + "testing " + "= " + "5;" + "\n        "
  const Line1Tokens: seq<Token> := [Token(Let, "let")] + [Token(Ident, "testing")] + [Token(Assign, "=")] + [Token(Int, "5"), Token(Semicolon, ";")] + []

  /** Line 2 of the test input (tests/lexer_test.rs:24), with the whitespace that follows it. */
  const Line2: string := "let " + "add " + "= " + "fn(" + "x," + "y)" + " " + "{" + "\n            "
  const Line2Tokens: seq<Token> := [Token(Let, "let")] + [Token(Ident, "add")] + [Token(Assign, "=")] + [Token(Function, "fn"), Token(LParen, "(")] + [Token(Ident, "x"), Token(Comma, ",")] + [Token(Ident, "y"), Token(RParen, ")")] + [] + [Token(LBrace, "{")] + []

  /** Line 3 of the test input (tests/lexer_test.rs:25), with the whitespace that follows it. */
  const Line3: string := "x " + "+" + " " + "y;" + "\n        "
  const Line3Tokens: seq<Token> := [Token(Ident, "x")] + [Token(Plus, "+")] + [] + [Token(Ident, "y"), Token(Semicolon, ";")] + []

  /** Line 4 of the test input (tests/lexer_test.rs:26), with the whitespace that follows it. */
  const Line4: string := "}" + ";" + "\n\n        "
  const Line4Tokens: seq<Token> := [Token(RBrace, "}")] + [Token(Semicolon, ";")] + []

  /** Line 5 of the test input (tests/lexer_test.rs:28), with the whitespace that follows it. */
  const Line5: string := "!-" + "/" + "*" + "5;" + "\n\n        "
  const Line5Tokens: seq<Token> := [Token(Bang, "!"), Token(Minus, "-")] + [Token(Slash, "/")] + [Token(Asterisk, "*")] + [Token(Int, "5"), Token(Semicolon, ";")] + []

  /** Line 6 of the test input (tests/lexer_test.rs:30), with the whitespace that follows it. */
  const Line6: string := "5 " + "<" + " " + "10 " + ">" + " " + "5;" + "\n\n        "
  const Line6Tokens: seq<Token> := [Token(Int, "5")] + [Token(Lt, "<")] + [] + [Token(Int, "10")] + [Token(Gt, ">")] + [] + [Token(Int, "5"), Token(Semicolon, ";")] + []

  /** Line 7 of the test input (tests/lexer_test.rs:32), with the whitespace that follows it. */
  const Line7: string := "if " + "(" + "5 " + "<" + " " + "10)" + " " + "{" + "\n            "
  const Line7Tokens: seq<Token> := [Token(If, "if")] + [Token(LParen, "(")] + [Token(Int, "5")] + [Token(Lt, "<")] + [] + [Token(Int, "10"), Token(RParen, ")")] + [] + [Token(LBrace, "{")] + []

  /** Line 8 of the test input (tests/lexer_test.rs:33), with the whitespace that follows it. */
  const Line8: string := "return " + "true;" + "\n        "
  const Line8Tokens: seq<Token> := [Token(Return, "return")] + [Token(True, "true"), Token(Semicolon, ";")] + []

  /** Line 9 of the test input (tests/lexer_test.rs:34), with the whitespace that follows it. */
  const Line9: string := "}" + " " + "else " + "{" + "\n            "
  const Line9Tokens: seq<Token> := [Token(RBrace, "}")] + [] + [Token(Else, "else")] + [Token(LBrace, "{")] + []

  /** Line 10 of the test input (tests/lexer_test.rs:35), with the whitespace that follows it. */
  const Line10: string := "return " + "false;" + "\n        "
  const Line10Tokens: seq<Token> := [Token(Return, "return")] + [Token(False, "false"), Token(Semicolon, ";")] + []

  /** Line 11 of the test input (tests/lexer_test.rs:36), with the whitespace that follows it. */
  const Line11: string := "}" + ";" + "\n\n        "
  const Line11Tokens: seq<Token> := [Token(RBrace, "}")] + [Token(Semicolon, ";")] + []

  /** Line 12 of the test input (tests/lexer_test.rs:38), with the whitespace that follows it. */
  const Line12: string := "10 " + "== " + "10;" + "\n        "
  const Line12Tokens: seq<Token> := [Token(Int, "10")] + [Token(Eq, "==")] + [Token(Int, "10"), Token(Semicolon, ";")] + []

  /** Line 13 of the test input (tests/lexer_test.rs:39), with the whitespace that follows it. */
  const Line13: string := "10 " + "!= "
  const Line13Tokens: seq<Token> := [Token(Int, "10")] + [Token(NotEq, "!=")]

  lemma Line1Prefix2()
    ensures Segment("let " + "testing ", 2, [Token(Let, "let")] + [Token(Ident, "testing")])
  {
    Piece1_1();
    Piece1_2();
    SegmentConcat("let ", 1, [Token(Let, "let")], "testing ", 1, [Token(Ident, "testing")]);
  }

  lemma Line1Prefix3()
    ensures Segment("let " + "testing " + "= ", 3, [Token(Let, "let")] + [Token(Ident, "testing")] + [Token(Assign, "=")])
  {
    Line1Prefix2();
    Piece1_3();
    SegmentConcat("let " + "testing ", 2, [Token(Let, "let")] + [Token(Ident, "testing")], "= ", 1, [Token(Assign, "=")]);
  }

  lemma Line1Prefix4()
    ensures Segment("let " + "testing " + "= " + "5;", 5, [Token(Let, "let")] + [Token(Ident, "testing")] + [Token(Assign, "=")] + [Token(Int, "5"), Token(Semicolon, ";")])
  {
    Line1Prefix3();
    Piece1_4();
    SegmentConcat("let " + "testing " + "= ", 3, [Token(Let, "let")] + [Token(Ident, "testing")] + [Token(Assign, "=")], "5;", 2, [Token(Int, "5"), Token(Semicolon, ";")]);
  }

  /** Line 1 lexes to its tokens. */
  lemma Line1Segment()
    ensures Segment(Line1, 5, Line1Tokens)
  {
    Line1Prefix4();
    Piece1_5();
    SegmentConcat("let " + "testing " + "= " + "5;", 5, [Token(Let, "let")] + [Token(Ident, "testing")] + [Token(Assign, "=")] + [Token(Int, "5"), Token(Semicolon, ";")], "\n        ", 0, []);
  }

  lemma Line2Prefix2()
    ensures Segment("let " + "add ", 2, [Token(Let, "let")] + [Token(Ident, "add")])
  {
    Piece1_1();
    Piece2_2();
    SegmentConcat("let ", 1, [Token(Let, "let")], "add ", 1, [Token(Ident, "add")]);
  }

  lemma Line2Prefix3()
    ensures Segment("let " + "add " + "= ", 3, [Token(Let, "let")] + [Token(Ident, "add")] + [Token(Assign, "=")])
  {
    Line2Prefix2();
    Piece1_3();
    SegmentConcat("let " + "add ", 2, [Token(Let, "let")] + [Token(Ident, "add")], "= ", 1, [Token(Assign, "=")]);
  }

  lemma Line2Prefix4()
    ensures Segment("let " + "add " + "= " + "fn(", 5, [Token(Let, "let")] + [Token(Ident, "add")] + [Token(Assign, "=")] + [Token(Function, "fn"), Token(LParen, "(")])
  {
    Line2Prefix3();
    Piece2_4();
    SegmentConcat("let " + "add " + "= ", 3, [Token(Let, "let")] + [Token(Ident, "add")] + [Token(Assign, "=")], "fn(", 2, [Token(Function, "fn"), Token(LParen, "(")]);
  }

  lemma Line2Prefix5()
    ensures Segment("let " + "add " + "= " + "fn(" + "x,", 7, [Token(Let, "let")] + [Token(Ident, "add")] + [Token(Assign, "=")] + [Token(Function, "fn"), Token(LParen, "(")] + [Token(Ident, "x"), Token(Comma, ",")])
  {
    Line2Prefix4();
    Piece2_5();
    SegmentConcat("let " + "add " + "= " + "fn(", 5, [Token(Let, "let")] + [Token(Ident, "add")] + [Token(Assign, "=")] + [Token(Function, "fn"), Token(LParen, "(")], "x,", 2, [Token(Ident, "x"), Token(Comma, ",")]);
  }

  lemma Line2Prefix6()
    ensures Segment("let " + "add " + "= " + "fn(" + "x," + "y)", 9, [Token(Let, "let")] + [Token(Ident, "add")] + [Token(Assign, "=")] + [Token(Function, "fn"), Token(LParen, "(")] + [Token(Ident, "x"), Token(Comma, ",")] + [Token(Ident, "y"), Token(RParen, ")")])
  {
    Line2Prefix5();
    Piece2_6();
    SegmentConcat("let " + "add " + "= " + "fn(" + "x,", 7, [Token(Let, "let")] + [Token(Ident, "add")] + [Token(Assign, "=")] + [Token(Function, "fn"), Token(LParen, "(")] + [Token(Ident, "x"), Token(Comma, ",")], "y)", 2, [Token(Ident, "y"), Token(RParen, ")")]);
  }

  lemma Line2Prefix7()
    ensures Segment("let " + "add " + "= " + "fn(" + "x," + "y)" + " ", 9, [Token(Let, "let")] + [Token(Ident, "add")] + [Token(Assign, "=")] + [Token(Function, "fn"), Token(LParen, "(")] + [Token(Ident, "x"), Token(Comma, ",")] + [Token(Ident, "y"), Token(RParen, ")")] + [])
  {
    Line2Prefix6();
    Piece2_7();
    SegmentConcat("let " + "add " + "= " + "fn(" + "x," + "y)", 9, [Token(Let, "let")] + [Token(Ident, "add")] + [Token(Assign, "=")] + [Token(Function, "fn"), Token(LParen, "(")] + [Token(Ident, "x"), Token(Comma, ",")] + [Token(Ident, "y"), Token(RParen, ")")], " ", 0, []);
  }

  lemma Line2Prefix8()
    ensures Segment("let " + "add " + "= " + "fn(" + "x," + "y)" + " " + "{", 10, [Token(Let, "let")] + [Token(Ident, "add")] + [Token(Assign, "=")] + [Token(Function, "fn"), Token(LParen, "(")] + [Token(Ident, "x"), Token(Comma, ",")] + [Token(Ident, "y"), Token(RParen, ")")] + [] + [Token(LBrace, "{")])
  {
    Line2Prefix7();
    Piece2_8();
    SegmentConcat("let " + "add " + "= " + "fn(" + "x," + "y)" + " ", 9, [Token(Let, "let")] + [Token(Ident, "add")] + [Token(Assign, "=")] + [Token(Function, "fn"), Token(LParen, "(")] + [Token(Ident, "x"), Token(Comma, ",")] + [Token(Ident, "y"), Token(RParen, ")")] + [], "{", 1, [Token(LBrace, "{")]);
  }

  /** Line 2 lexes to its tokens. */
  lemma Line2Segment()
    ensures Segment(Line2, 10, Line2Tokens)
  {
    Line2Prefix8();
    Piece2_9();
    SegmentConcat("let " + "add " + "= " + "fn(" + "x," + "y)" + " " + "{", 10, [Token(Let, "let")] + [Token(Ident, "add")] + [Token(Assign, "=")] + [Token(Function, "fn"), Token(LParen, "(")] + [Token(Ident, "x"), Token(Comma, ",")] + [Token(Ident, "y"), Token(RParen, ")")] + [] + [Token(LBrace, "{")], "\n            ", 0, []);
  }

  lemma Line3Prefix2()
    ensures Segment("x " + "+", 2, [Token(Ident, "x")] + [Token(Plus, "+")])
  {
    Piece3_1();
    Piece3_2();
    SegmentConcat("x ", 1, [Token(Ident, "x")], "+", 1, [Token(Plus, "+")]);
  }

  lemma Line3Prefix3()
    ensures Segment("x " + "+" + " ", 2, [Token(Ident, "x")] + [Token(Plus, "+")] + [])
  {
    Line3Prefix2();
    Piece2_7();
    SegmentConcat("x " + "+", 2, [Token(Ident, "x")] + [Token(Plus, "+")], " ", 0, []);
  }

  lemma Line3Prefix4()
    ensures Segment("x " + "+" + " " + "y;", 4, [Token(Ident, "x")] + [Token(Plus, "+")] + [] + [Token(Ident, "y"), Token(Semicolon, ";")])
  {
    Line3Prefix3();
    Piece3_4();
    SegmentConcat("x " + "+" + " ", 2, [Token(Ident, "x")] + [Token(Plus, "+")] + [], "y;", 2, [Token(Ident, "y"), Token(Semicolon, ";")]);
  }

  /** Line 3 lexes to its tokens. */
  lemma Line3Segment()
    ensures Segment(Line3, 4, Line3Tokens)
  {
    Line3Prefix4();
    Piece1_5();
    SegmentConcat("x " + "+" + " " + "y;", 4, [Token(Ident, "x")] + [Token(Plus, "+")] + [] + [Token(Ident, "y"), Token(Semicolon, ";")], "\n        ", 0, []);
  }

  lemma Line4Prefix2()
    ensures Segment("}" + ";", 2, [Token(RBrace, "}")] + [Token(Semicolon, ";")])
  {
    Piece4_1();
    Piece4_2();
    SegmentConcat("}", 1, [Token(RBrace, "}")], ";", 1, [Token(Semicolon, ";")]);
  }

  /** Line 4 lexes to its tokens. */
  lemma Line4Segment()
    ensures Segment(Line4, 2, Line4Tokens)
  {
    Line4Prefix2();
    Piece4_3();
    SegmentConcat("}" + ";", 2, [Token(RBrace, "}")] + [Token(Semicolon, ";")], "\n\n        ", 0, []);
  }

  lemma Line5Prefix2()
    ensures Segment("!-" + "/", 3, [Token(Bang, "!"), Token(Minus, "-")] + [Token(Slash, "/")])
  {
    Piece6_1();
    Piece6_2();
    SegmentConcat("!-", 2, [Token(Bang, "!"), Token(Minus, "-")], "/", 1, [Token(Slash, "/")]);
  }

  lemma Line5Prefix3()
    ensures Segment("!-" + "/" + "*", 4, [Token(Bang, "!"), Token(Minus, "-")] + [Token(Slash, "/")] + [Token(Asterisk, "*")])
  {
    Line5Prefix2();
    Piece6_3();
    SegmentConcat("!-" + "/", 3, [Token(Bang, "!"), Token(Minus, "-")] + [Token(Slash, "/")], "*", 1, [Token(Asterisk, "*")]);
  }

  lemma Line5Prefix4()
    ensures Segment("!-" + "/" + "*" + "5;", 6, [Token(Bang, "!"), Token(Minus, "-")] + [Token(Slash, "/")] + [Token(Asterisk, "*")] + [Token(Int, "5"), Token(Semicolon, ";")])
  {
    Line5Prefix3();
    Piece1_4();
    SegmentConcat("!-" + "/" + "*", 4, [Token(Bang, "!"), Token(Minus, "-")] + [Token(Slash, "/")] + [Token(Asterisk, "*")], "5;", 2, [Token(Int, "5"), Token(Semicolon, ";")]);
  }

  /** Line 5 lexes to its tokens. */
  lemma Line5Segment()
    ensures Segment(Line5, 6, Line5Tokens)
  {
    Line5Prefix4();
    Piece4_3();
    SegmentConcat("!-" + "/" + "*" + "5;", 6, [Token(Bang, "!"), Token(Minus, "-")] + [Token(Slash, "/")] + [Token(Asterisk, "*")] + [Token(Int, "5"), Token(Semicolon, ";")], "\n\n        ", 0, []);
  }

  lemma Line6Prefix2()
    ensures Segment("5 " + "<", 2, [Token(Int, "5")] + [Token(Lt, "<")])
  {
    Piece8_1();
    Piece8_2();
    SegmentConcat("5 ", 1, [Token(Int, "5")], "<", 1, [Token(Lt, "<")]);
  }

  lemma Line6Prefix3()
    ensures Segment("5 " + "<" + " ", 2, [Token(Int, "5")] + [Token(Lt, "<")] + [])
  {
    Line6Prefix2();
    Piece2_7();
    SegmentConcat("5 " + "<", 2, [Token(Int, "5")] + [Token(Lt, "<")], " ", 0, []);
  }

  lemma Line6Prefix4()
    ensures Segment("5 " + "<" + " " + "10 ", 3, [Token(Int, "5")] + [Token(Lt, "<")] + [] + [Token(Int, "10")])
  {
    Line6Prefix3();
    Piece8_4();
    SegmentConcat("5 " + "<" + " ", 2, [Token(Int, "5")] + [Token(Lt, "<")] + [], "10 ", 1, [Token(Int, "10")]);
  }

  lemma Line6Prefix5()
    ensures Segment("5 " + "<" + " " + "10 " + ">", 4, [Token(Int, "5")] + [Token(Lt, "<")] + [] + [Token(Int, "10")] + [Token(Gt, ">")])
  {
    Line6Prefix4();
    Piece8_5();
    SegmentConcat("5 " + "<" + " " + "10 ", 3, [Token(Int, "5")] + [Token(Lt, "<")] + [] + [Token(Int, "10")], ">", 1, [Token(Gt, ">")]);
  }

  lemma Line6Prefix6()
    ensures Segment("5 " + "<" + " " + "10 " + ">" + " ", 4, [Token(Int, "5")] + [Token(Lt, "<")] + [] + [Token(Int, "10")] + [Token(Gt, ">")] + [])
  {
    Line6Prefix5();
    Piece2_7();
    SegmentConcat("5 " + "<" + " " + "10 " + ">", 4, [Token(Int, "5")] + [Token(Lt, "<")] + [] + [Token(Int, "10")] + [Token(Gt, ">")], " ", 0, []);
  }

  lemma Line6Prefix7()
    ensures Segment("5 " + "<" + " " + "10 " + ">" + " " + "5;", 6, [Token(Int, "5")] + [Token(Lt, "<")] + [] + [Token(Int, "10")] + [Token(Gt, ">")] + [] + [Token(Int, "5"), Token(Semicolon, ";")])
  {
    Line6Prefix6();
    Piece1_4();
    SegmentConcat("5 " + "<" + " " + "10 " + ">" + " ", 4, [Token(Int, "5")] + [Token(Lt, "<")] + [] + [Token(Int, "10")] + [Token(Gt, ">")] + [], "5;", 2, [Token(Int, "5"), Token(Semicolon, ";")]);
  }

  /** Line 6 lexes to its tokens. */
  lemma Line6Segment()
    ensures Segment(Line6, 6, Line6Tokens)
  {
    Line6Prefix7();
    Piece4_3();
    SegmentConcat("5 " + "<" + " " + "10 " + ">" + " " + "5;", 6, [Token(Int, "5")] + [Token(Lt, "<")] + [] + [Token(Int, "10")] + [Token(Gt, ">")] + [] + [Token(Int, "5"), Token(Semicolon, ";")], "\n\n        ", 0, []);
  }

  lemma Line7Prefix2()
    ensures Segment("if " + "(", 2, [Token(If, "if")] + [Token(LParen, "(")])
  {
    Piece10_1();
    Piece10_2();
    SegmentConcat("if ", 1, [Token(If, "if")], "(", 1, [Token(LParen, "(")]);
  }

  lemma Line7Prefix3()
    ensures Segment("if " + "(" + "5 ", 3, [Token(If, "if")] + [Token(LParen, "(")] + [Token(Int, "5")])
  {
    Line7Prefix2();
    Piece8_1();
    SegmentConcat("if " + "(", 2, [Token(If, "if")] + [Token(LParen, "(")], "5 ", 1, [Token(Int, "5")]);
  }

  lemma Line7Prefix4()
    ensures Segment("if " + "(" + "5 " + "<", 4, [Token(If, "if")] + [Token(LParen, "(")] + [Token(Int, "5")] + [Token(Lt, "<")])
  {
    Line7Prefix3();
    Piece8_2();
    SegmentConcat("if " + "(" + "5 ", 3, [Token(If, "if")] + [Token(LParen, "(")] + [Token(Int, "5")], "<", 1, [Token(Lt, "<")]);
  }

  lemma Line7Prefix5()
    ensures Segment("if " + "(" + "5 " + "<" + " ", 4, [Token(If, "if")] + [Token(LParen, "(")] + [Token(Int, "5")] + [Token(Lt, "<")] + [])
  {
    Line7Prefix4();
    Piece2_7();
    SegmentConcat("if " + "(" + "5 " + "<", 4, [Token(If, "if")] + [Token(LParen, "(")] + [Token(Int, "5")] + [Token(Lt, "<")], " ", 0, []);
  }

  lemma Line7Prefix6()
    ensures Segment("if " + "(" + "5 " + "<" + " " + "10)", 6, [Token(If, "if")] + [Token(LParen, "(")] + [Token(Int, "5")] + [Token(Lt, "<")] + [] + [Token(Int, "10"), Token(RParen, ")")])
  {
    Line7Prefix5();
    Piece10_6();
    SegmentConcat("if " + "(" + "5 " + "<" + " ", 4, [Token(If, "if")] + [Token(LParen, "(")] + [Token(Int, "5")] + [Token(Lt, "<")] + [], "10)", 2, [Token(Int, "10"), Token(RParen, ")")]);
  }

  lemma Line7Prefix7()
    ensures Segment("if " + "(" + "5 " + "<" + " " + "10)" + " ", 6, [Token(If, "if")] + [Token(LParen, "(")] + [Token(Int, "5")] + [Token(Lt, "<")] + [] + [Token(Int, "10"), Token(RParen, ")")] + [])
  {
    Line7Prefix6();
    Piece2_7();
    SegmentConcat("if " + "(" + "5 " + "<" + " " + "10)", 6, [Token(If, "if")] + [Token(LParen, "(")] + [Token(Int, "5")] + [Token(Lt, "<")] + [] + [Token(Int, "10"), Token(RParen, ")")], " ", 0, []);
  }

  lemma Line7Prefix8()
    ensures Segment("if " + "(" + "5 " + "<" + " " + "10)" + " " + "{", 7, [Token(If, "if")] + [Token(LParen, "(")] + [Token(Int, "5")] + [Token(Lt, "<")] + [] + [Token(Int, "10"), Token(RParen, ")")] + [] + [Token(LBrace, "{")])
  {
    Line7Prefix7();
    Piece2_8();
    SegmentConcat("if " + "(" + "5 " + "<" + " " + "10)" + " ", 6, [Token(If, "if")] + [Token(LParen, "(")] + [Token(Int, "5")] + [Token(Lt, "<")] + [] + [Token(Int, "10"), Token(RParen, ")")] + [], "{", 1, [Token(LBrace, "{")]);
  }

  /** Line 7 lexes to its tokens. */
  lemma Line7Segment()
    ensures Segment(Line7, 7, Line7Tokens)
  {
    Line7Prefix8();
    Piece2_9();
    SegmentConcat("if " + "(" + "5 " + "<" + " " + "10)" + " " + "{", 7, [Token(If, "if")] + [Token(LParen, "(")] + [Token(Int, "5")] + [Token(Lt, "<")] + [] + [Token(Int, "10"), Token(RParen, ")")] + [] + [Token(LBrace, "{")], "\n            ", 0, []);
  }

  lemma Line8Prefix2()
    ensures Segment("return " + "true;", 3, [Token(Return, "return")] + [Token(True, "true"), Token(Semicolon, ";")])
  {
    Piece11_1();
    Piece11_2();
    SegmentConcat("return ", 1, [Token(Return, "return")], "true;", 2, [Token(True, "true"), Token(Semicolon, ";")]);
  }

  /** Line 8 lexes to its tokens. */
  lemma Line8Segment()
    ensures Segment(Line8, 3, Line8Tokens)
  {
    Line8Prefix2();
    Piece1_5();
    SegmentConcat("return " + "true;", 3, [Token(Return, "return")] + [Token(True, "true"), Token(Semicolon, ";")], "\n        ", 0, []);
  }

  lemma Line9Prefix2()
    ensures Segment("}" + " ", 1, [Token(RBrace, "}")] + [])
  {
    Piece4_1();
    Piece2_7();
    SegmentConcat("}", 1, [Token(RBrace, "}")], " ", 0, []);
  }

  lemma Line9Prefix3()
    ensures Segment("}" + " " + "else ", 2, [Token(RBrace, "}")] + [] + [Token(Else, "else")])
  {
    Line9Prefix2();
    Piece12_3();
    SegmentConcat("}" + " ", 1, [Token(RBrace, "}")] + [], "else ", 1, [Token(Else, "else")]);
  }

  lemma Line9Prefix4()
    ensures Segment("}" + " " + "else " + "{", 3, [Token(RBrace, "}")] + [] + [Token(Else, "else")] + [Token(LBrace, "{")])
  {
    Line9Prefix3();
    Piece2_8();
    SegmentConcat("}" + " " + "else ", 2, [Token(RBrace, "}")] + [] + [Token(Else, "else")], "{", 1, [Token(LBrace, "{")]);
  }

  /** Line 9 lexes to its tokens. */
  lemma Line9Segment()
    ensures Segment(Line9, 3, Line9Tokens)
  {
    Line9Prefix4();
    Piece2_9();
    SegmentConcat("}" + " " + "else " + "{", 3, [Token(RBrace, "}")] + [] + [Token(Else, "else")] + [Token(LBrace, "{")], "\n            ", 0, []);
  }

  lemma Line10Prefix2()
    ensures Segment("return " + "false;", 3, [Token(Return, "return")] + [Token(False, "false"), Token(Semicolon, ";")])
  {
    Piece11_1();
    Piece13_2();
    SegmentConcat("return ", 1, [Token(Return, "return")], "false;", 2, [Token(False, "false"), Token(Semicolon, ";")]);
  }

  /** Line 10 lexes to its tokens. */
  lemma Line10Segment()
    ensures Segment(Line10, 3, Line10Tokens)
  {
    Line10Prefix2();
    Piece1_5();
    SegmentConcat("return " + "false;", 3, [Token(Return, "return")] + [Token(False, "false"), Token(Semicolon, ";")], "\n        ", 0, []);
  }

  lemma Line11Prefix2()
    ensures Segment("}" + ";", 2, [Token(RBrace, "}")] + [Token(Semicolon, ";")])
  {
    Piece4_1();
    Piece4_2();
    SegmentConcat("}", 1, [Token(RBrace, "}")], ";", 1, [Token(Semicolon, ";")]);
  }

  /** Line 11 lexes to its tokens. */
  lemma Line11Segment()
    ensures Segment(Line11, 2, Line11Tokens)
  {
    Line11Prefix2();
    Piece4_3();
    SegmentConcat("}" + ";", 2, [Token(RBrace, "}")] + [Token(Semicolon, ";")], "\n\n        ", 0, []);
  }

  lemma Line12Prefix2()
    ensures Segment("10 " + "== ", 2, [Token(Int, "10")] + [Token(Eq, "==")])
  {
    Piece8_4();
    Piece16_2();
    SegmentConcat("10 ", 1, [Token(Int, "10")], "== ", 1, [Token(Eq, "==")]);
  }

  lemma Line12Prefix3()
    ensures Segment("10 " + "== " + "10;", 4, [Token(Int, "10")] + [Token(Eq, "==")] + [Token(Int, "10"), Token(Semicolon, ";")])
  {
    Line12Prefix2();
    Piece16_3();
    SegmentConcat("10 " + "== ", 2, [Token(Int, "10")] + [Token(Eq, "==")], "10;", 2, [Token(Int, "10"), Token(Semicolon, ";")]);
  }

  /** Line 12 lexes to its tokens. */
  lemma Line12Segment()
    ensures Segment(Line12, 4, Line12Tokens)
  {
    Line12Prefix3();
    Piece1_5();
    SegmentConcat("10 " + "== " + "10;", 4, [Token(Int, "10")] + [Token(Eq, "==")] + [Token(Int, "10"), Token(Semicolon, ";")], "\n        ", 0, []);
  }

  /** Line 13 lexes to its tokens. */
  lemma Line13Segment()
    ensures Segment(Line13, 2, Line13Tokens)
  {
    Piece8_4();
    Piece17_2();
    SegmentConcat("10 ", 1, [Token(Int, "10")], "!= ", 1, [Token(NotEq, "!=")]);
  }

  /** The input of `test_next_token` (tests/lexer_test.rs:23-39), line by line. */
  const TestInput: string :=
    Line1 + Line2 + Line3 + Line4 + Line5 + Line6 + Line7 + Line8 + Line9 + Line10 + Line11 + Line12 + Line13 + "9"

  /** The tokens `test_next_token` expects (tests/lexer_test.rs:42-102), line by line. */
  const Expected: seq<Token> :=
    Line1Tokens + Line2Tokens + Line3Tokens + Line4Tokens + Line5Tokens + Line6Tokens + Line7Tokens + Line8Tokens + Line9Tokens + Line10Tokens + Line11Tokens + Line12Tokens + Line13Tokens + [Token(Int, "9"), Token(Eof, " ")]

  lemma UpToLine2()
    ensures Segment(Line1 + Line2, 15, Line1Tokens + Line2Tokens)
  {
    Line1Segment();
    Line2Segment();
    SegmentConcat(Line1, 5, Line1Tokens, Line2, 10, Line2Tokens);
  }

  lemma UpToLine3()
    ensures Segment(Line1 + Line2 + Line3, 19, Line1Tokens + Line2Tokens + Line3Tokens)
  {
    UpToLine2();
    Line3Segment();
    SegmentConcat(Line1 + Line2, 15, Line1Tokens + Line2Tokens, Line3, 4, Line3Tokens);
  }

  lemma UpToLine4()
    ensures Segment(Line1 + Line2 + Line3 + Line4, 21, Line1Tokens + Line2Tokens + Line3Tokens + Line4Tokens)
  {
    UpToLine3();
    Line4Segment();
    SegmentConcat(Line1 + Line2 + Line3, 19, Line1Tokens + Line2Tokens + Line3Tokens, Line4, 2, Line4Tokens);
  }

  lemma UpToLine5()
    ensures Segment(Line1 + Line2 + Line3 + Line4 + Line5, 27, Line1Tokens + Line2Tokens + Line3Tokens + Line4Tokens + Line5Tokens)
  {
    UpToLine4();
    Line5Segment();
    SegmentConcat(Line1 + Line2 + Line3 + Line4, 21, Line1Tokens + Line2Tokens + Line3Tokens + Line4Tokens, Line5, 6, Line5Tokens);
  }

  lemma UpToLine6()
    ensures Segment(Line1 + Line2 + Line3 + Line4 + Line5 + Line6, 33, Line1Tokens + Line2Tokens + Line3Tokens + Line4Tokens + Line5Tokens + Line6Tokens)
  {
    UpToLine5();
    Line6Segment();
    SegmentConcat(Line1 + Line2 + Line3 + Line4 + Line5, 27, Line1Tokens + Line2Tokens + Line3Tokens + Line4Tokens + Line5Tokens, Line6, 6, Line6Tokens);
  }

  lemma UpToLine7()
    ensures Segment(Line1 + Line2 + Line3 + Line4 + Line5 + Line6 + Line7, 40, Line1Tokens + Line2Tokens + Line3Tokens + Line4Tokens + Line5Tokens + Line6Tokens + Line7Tokens)
  {
    UpToLine6();
    Line7Segment();
    SegmentConcat(Line1 + Line2 + Line3 + Line4 + Line5 + Line6, 33, Line1Tokens + Line2Tokens + Line3Tokens + Line4Tokens + Line5Tokens + Line6Tokens, Line7, 7, Line7Tokens);
  }

  lemma UpToLine8()
    ensures Segment(Line1 + Line2 + Line3 + Line4 + Line5 + Line6 + Line7 + Line8, 43, Line1Tokens + Line2Tokens + Line3Tokens + Line4Tokens + Line5Tokens + Line6Tokens + Line7Tokens + Line8Tokens)
  {
    UpToLine7();
    Line8Segment();
    SegmentConcat(Line1 + Line2 + Line3 + Line4 + Line5 + Line6 + Line7, 40, Line1Tokens + Line2Tokens + Line3Tokens + Line4Tokens + Line5Tokens + Line6Tokens + Line7Tokens, Line8, 3, Line8Tokens);
  }

  lemma UpToLine9()
    ensures Segment(Line1 + Line2 + Line3 + Line4 + Line5 + Line6 + Line7 + Line8 + Line9, 46, Line1Tokens + Line2Tokens + Line3Tokens + Line4Tokens + Line5Tokens + Line6Tokens + Line7Tokens + Line8Tokens + Line9Tokens)
  {
    UpToLine8();
    Line9Segment();
    SegmentConcat(Line1 + Line2 + Line3 + Line4 + Line5 + Line6 + Line7 + Line8, 43, Line1Tokens + Line2Tokens + Line3Tokens + Line4Tokens + Line5Tokens + Line6Tokens + Line7Tokens + Line8Tokens, Line9, 3, Line9Tokens);
  }

  lemma UpToLine10()
    ensures Segment(Line1 + Line2 + Line3 + Line4 + Line5 + Line6 + Line7 + Line8 + Line9 + Line10, 49, Line1Tokens + Line2Tokens + Line3Tokens + Line4Tokens + Line5Tokens + Line6Tokens + Line7Tokens + Line8Tokens + Line9Tokens + Line10Tokens)
  {
    UpToLine9();
    Line10Segment();
    SegmentConcat(Line1 + Line2 + Line3 + Line4 + Line5 + Line6 + Line7 + Line8 + Line9, 46, Line1Tokens + Line2Tokens + Line3Tokens + Line4Tokens + Line5Tokens + Line6Tokens + Line7Tokens + Line8Tokens + Line9Tokens, Line10, 3, Line10Tokens);
  }

  lemma UpToLine11()
    ensures Segment(Line1 + Line2 + Line3 + Line4 + Line5 + Line6 + Line7 + Line8 + Line9 + Line10 + Line11, 51, Line1Tokens + Line2Tokens + Line3Tokens + Line4Tokens + Line5Tokens + Line6Tokens + Line7Tokens + Line8Tokens + Line9Tokens + Line10Tokens + Line11Tokens)
  {
    UpToLine10();
    Line11Segment();
    SegmentConcat(Line1 + Line2 + Line3 + Line4 + Line5 + Line6 + Line7 + Line8 + Line9 + Line10, 49, Line1Tokens + Line2Tokens + Line3Tokens + Line4Tokens + Line5Tokens + Line6Tokens + Line7Tokens + Line8Tokens + Line9Tokens + Line10Tokens, Line11, 2, Line11Tokens);
  }

  lemma UpToLine12()
    ensures Segment(Line1 + Line2 + Line3 + Line4 + Line5 + Line6 + Line7 + Line8 + Line9 + Line10 + Line11 + Line12, 55, Line1Tokens + Line2Tokens + Line3Tokens + Line4Tokens + Line5Tokens + Line6Tokens + Line7Tokens + Line8Tokens + Line9Tokens + Line10Tokens + Line11Tokens + Line12Tokens)
  {
    UpToLine11();
    Line12Segment();
    SegmentConcat(Line1 + Line2 + Line3 + Line4 + Line5 + Line6 + Line7 + Line8 + Line9 + Line10 + Line11, 51, Line1Tokens + Line2Tokens + Line3Tokens + Line4Tokens + Line5Tokens + Line6Tokens + Line7Tokens + Line8Tokens + Line9Tokens + Line10Tokens + Line11Tokens, Line12, 4, Line12Tokens);
  }

  lemma UpToLine13()
    ensures Segment(Line1 + Line2 + Line3 + Line4 + Line5 + Line6 + Line7 + Line8 + Line9 + Line10 + Line11 + Line12 + Line13, 57, Line1Tokens + Line2Tokens + Line3Tokens + Line4Tokens + Line5Tokens + Line6Tokens + Line7Tokens + Line8Tokens + Line9Tokens + Line10Tokens + Line11Tokens + Line12Tokens + Line13Tokens)
  {
    UpToLine12();
    Line13Segment();
    SegmentConcat(Line1 + Line2 + Line3 + Line4 + Line5 + Line6 + Line7 + Line8 + Line9 + Line10 + Line11 + Line12, 55, Line1Tokens + Line2Tokens + Line3Tokens + Line4Tokens + Line5Tokens + Line6Tokens + Line7Tokens + Line8Tokens + Line9Tokens + Line10Tokens + Line11Tokens + Line12Tokens, Line13, 2, Line13Tokens);
  }

  /** `test_next_token`: the input lexes to exactly the expected tokens, end-of-file last. */
  lemma TestNextToken()
    ensures |Expected| == 59
    ensures TokenStream(TestInput, 0, 59) == Expected
  {
    UpToLine13();
    FinalPiece();
    StreamConcat(Line1 + Line2 + Line3 + Line4 + Line5 + Line6 + Line7 + Line8 + Line9 + Line10 + Line11 + Line12 + Line13, "9", 57, 2);
  }
}
