/**
 * Token model of the Monkey front end: the closed set of token kinds, the
 * token record (kind plus the literal text of one occurrence) and the
 * keyword table that classifies identifier text.
 */
module Tokens {

  /** The closed enumeration of token kinds, in the order the source declares them. */
  datatype TokenType =
    | Illegal | Eof
    | Ident | Int
    | Assign | Plus | Minus | Bang | Asterisk | Slash
    | Lt | Gt
    | Comma | Semicolon
    | LParen | RParen | LBrace | RBrace
    | Function | Let | True | False | If | Else | Return
    | Eq | NotEq

  /** A token: its kind and the literal text it was built from. Equality is on both fields. */
  datatype Token = Token(typ: TokenType, literal: string)

  /** The kinds the keyword table can produce for a keyword. */
  predicate IsKeywordKind(t: TokenType) {
    t in {Function, Let, True, False, If, Else, Return}
  }

  /** The spelling of each keyword kind; an independent statement of the keyword table. */
  function KeywordSpelling(t: TokenType): (s: string)
    requires IsKeywordKind(t)
    ensures IsKeyword(s)
    ensures |s| > 0 && forall k :: 0 <= k < |s| ==> 'a' <= s[k] <= 'z'
  {
    match t
    case Let => "let"
    case Function => "fn"
    case True => "true"
    case False => "false"
    case If => "if"
    case Else => "else"
    case Return => "return"
  }

  /** True exactly for the seven keyword spellings (case-sensitive). */
  predicate IsKeyword(s: string) {
    s in {"let", "fn", "true", "false", "if", "else", "return"}
  }

  /** `Token::new`: a token of kind `t` whose literal is the single character `c`. */
  function NewToken(t: TokenType, c: char): (r: Token)
    ensures r.typ == t && |r.literal| == 1 && r.literal[0] == c
  {
    Token(t, [c])
  }

  /** `TokenType::serialize`: classify identifier text against the keyword table. */
  function Serialize(s: string): (r: TokenType)
    ensures r == Ident || IsKeywordKind(r)
    ensures r == Ident <==> !IsKeyword(s)
    ensures r != Ident ==> KeywordSpelling(r) == s
  {
    match s
    case "let" => Let
    case "fn" => Function
    case "true" => True
    case "false" => False
    case "if" => If
    case "else" => Else
    case "return" => Return
    case _ => Ident
  }

  /** Serializing a keyword's spelling gives back that keyword's kind. */
  lemma SerializeKeywordSpelling(t: TokenType)
    requires IsKeywordKind(t)
    ensures Serialize(KeywordSpelling(t)) == t
  {
  }

  /** The range of the keyword table excludes every non-keyword kind but Ident. */
  lemma SerializeRange(s: string)
    ensures Serialize(s) !in {Illegal, Eof, Int, Assign, Plus, Minus, Bang, Asterisk, Slash,
                              Lt, Gt, Comma, Semicolon, LParen, RParen, LBrace, RBrace, Eq, NotEq}
  {
  }

  /** Classification is case-sensitive: capitalised keywords are plain identifiers. */
  lemma SerializeCaseSensitive()
    ensures Serialize("Let") == Ident && Serialize("FN") == Ident && Serialize("True") == Ident
  {
  }

  /** `Token::new` determines both of its arguments. */
  lemma NewTokenInjective(t: TokenType, c: char, t': TokenType, c': char)
    ensures NewToken(t, c) == NewToken(t', c') <==> t == t' && c == c'
  {
    if NewToken(t, c) == NewToken(t', c') {
      assert NewToken(t, c).literal[0] == NewToken(t', c').literal[0];
    }
  }

  /** Token equality compares kind and literal, so end-of-file tokens with different literals differ. */
  lemma TokenEquality(a: Token, b: Token)
    ensures a == b <==> a.typ == b.typ && a.literal == b.literal
    ensures Token(Eof, " ") != Token(Eof, "0")
  {
    assert Token(Eof, " ").literal[0] != Token(Eof, "0").literal[0];
  }
}
