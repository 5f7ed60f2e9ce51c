# Monkey front end in Dafny

A model of the front end of a Monkey-style scripting language written in
Rust: the token model and keyword table, the lexer, the syntax tree and its
rendering back to text, and the parser's two-token cursor with the first
part of `let`-statement parsing.

Modules:

- `Tokens` (`tokens.dfy`): the closed set of token kinds, the token record, `Token::new` and the keyword table `serialize`.
- `Lexing` (`lexer.dfy`): the lexer.
  - `Scan` is a pure specification of one call to `next_token` from a cursor position. `TokenStream` and `After` give the first `n` tokens and where the cursor stands after them.
  - The class `Lexer` has the source's three fields (`position`, `readPosition`, `ch`) over a constant input. Its methods are the source's loops and are proved to follow `Scan`.
  - The lemmas state each branch of `next_token` and how token streams compose across concatenated text.
  - The stream is built from proof scaffolding with no counterpart in the source: `Rest` (the text still ahead of a cursor, equal to the suffix by `RestSuffix`) and `Steps`/`Consumed`/`Final` (iterating any step function). These carry no row below.
- `LexerTest` (`lexer_test.dfy`): the test `test_next_token` as a lemma over the whole token stream of its input.
- `Ast` (`ast.dfy`): the statement and expression variants as datatypes, and rendering as mutually recursive functions.
  - The loops of `Program::string` and `BlockStatement::string` are methods proved against those functions.
  - The lemmas cover rendering's algebra, the string test, and the balance of parentheses in rendered text.
- `Parsing` (`parser.dfy`): the class `Parser`, which owns a `Lexer`.
  - A ghost count of consumed tokens ties the `current`/`peek` window to the lexer's token stream.
  - `parse_let_statement` is modelled up to the point where the source stops.
- `RoundTrip` (`roundtrip.dfy`): rendered `let` and `return` statements lexed back to their keyword, identifier and punctuation tokens, and a fresh parser run over a rendered `let` statement.
- `Wrappers` (`wrappers.dfy`): `Option`.

## Model

| member | source | states |
|---|---|---|
| Tokens.NewTokenInjective | src/token.rs:8-13 | two single-character tokens are equal exactly when their kinds and characters are equal |
| Tokens.TokenEquality | src/token.rs:1-5 | token equality is equality of kind and literal, so `EOF " "` differs from `EOF "0"` |
| Tokens.KeywordSpelling | src/token.rs:60-70 | each keyword kind has a spelling that is in the keyword set and made of lower-case letters; this is a second statement of the keyword table |
| Tokens.Serialize | src/token.rs:60-73 | the result is `Ident` or a keyword kind; it is `Ident` exactly for non-keywords; a keyword kind is returned only for that keyword's spelling |
| Tokens.SerializeKeywordSpelling | src/token.rs:60-69 | each of the seven keywords maps back to its own kind |
| Tokens.SerializeRange | src/token.rs:61-71 | the range of the keyword table contains no illegal, end-of-file, integer, operator or delimiter kind |
| Tokens.SerializeCaseSensitive | src/token.rs:69-70 | capitalised keywords such as `Let`, `FN` and `True` are identifiers |
| Lexing.PunctKind | src/lexer.rs:38-58 | each of the twelve single-character tokens maps to a punctuation kind |
| Lexing.IsWhitespace | src/lexer.rs:118-122 | the four characters `skip_whitespace` consumes: space, tab, newline and carriage return |
| Lexing.IsLetter | src/lexer.rs:125-127 | `is_letter` on ASCII text: a Latin letter or `_` |
| Lexing.IsDigit | src/lexer.rs:129-131 | `is_digit` on ASCII text: `0` to `9` |
| Lexing.RunEnd | src/lexer.rs:78-96 | the end of the maximal run of characters satisfying the predicate: every character before it satisfies it and the character at it does not |
| Lexing.RunEndAt | src/lexer.rs:78-96 | a run that stops where the predicate first fails is the run `RunEnd` finds, so maximal runs are unique |
| Lexing.Scan | src/lexer.rs:23-76 | one call of `next_token` from a cursor position: the whitespace run is skipped and `ScanAt` decides the token; `Lexing.Lexer.NextToken` is proved to compute it, and the `Scan…` lemmas below state its cases |
| Lexing.ScanAt | src/lexer.rs:28-71 | the `match` of `next_token` on the character under the cursor, with the look-ahead for `==` and `!=` and the runs for identifiers and numbers; its cases are stated by `ScanPunct`, `ScanAssignOrEq`, `ScanBangOrNotEq`, `ScanIdentifier`, `ScanNumber`, `ScanIllegal` and `ScanAtEnd` |
| Lexing.ScanText | src/lexer.rs:23-76 | one call of `next_token` with the cursor at the start of the text; `ScanLocal` shows every call is one of these on the text ahead |
| Lexing.TokenStream | tests/lexer_test.rs:104-107 | the stream of `n` calls holds exactly `n` tokens |
| Lexing.ScanLocal | src/lexer.rs:23-76 | a call depends only on the text ahead of the cursor: it is the call on that text, with the cursor shifted |
| Lexing.StreamOne | src/lexer.rs:23-76 | one token from `pos` is the token `Scan` gives, and the cursor stops where `Scan` leaves it |
| Lexing.StreamTwo | src/parser.rs:14-25 | two tokens from `pos` are the two tokens `Scan` gives one after the other |
| Lexing.StreamUnfold | src/lexer.rs:23-76 | `k + 1` tokens are `Scan`'s token followed by `k` tokens from where `Scan` stopped |
| Lexing.StreamStep | src/lexer.rs:23-76 | `m + 1` tokens are the first `m` tokens followed by the token `Scan` gives where they stopped |
| Lexing.AfterAdvances | src/lexer.rs:23-76 | the cursor never moves back, and after one or more calls it lies strictly past where it started |
| Lexing.Lexer.constructor | src/lexer.rs:11-21 | a new lexer holds the input and stands on its first character with `ch` loaded and `readPosition` one ahead |
| Lexing.Lexer.ReadChar | src/lexer.rs:98-108 | `position` becomes the old `readPosition`, `readPosition` goes up by one, and `ch` is the character read there or NUL past the end; nothing is indexed out of bounds |
| Lexing.Lexer.PeekChar | src/lexer.rs:110-116 | agrees with `PeekAt` at `readPosition`, the look-ahead `Scan` uses to tell `==` from `=` and `!=` from `!`; it reads but does not move the cursor |
| Lexing.Lexer.SkipWhitespace | src/lexer.rs:118-122 | consumes exactly the maximal run of spaces, tabs, newlines and carriage returns, leaving `ch` on a non-whitespace character |
| Lexing.Lexer.ReadIdentifier | src/lexer.rs:88-96 | consumes the maximal run of letters and underscores and returns exactly the text it consumed |
| Lexing.Lexer.ReadNumber | src/lexer.rs:78-86 | consumes the maximal run of digits and returns exactly the text it consumed |
| Lexing.Lexer.NextToken | src/lexer.rs:23-76 | the token returned and the new cursor position are those of `Scan` from the old position; the state invariant is kept |
| Lexing.Tokenize | tests/lexer_test.rs:104-107 | a fresh lexer asked for `n` tokens hands out `TokenStream(input, 0, n)` |
| Lexing.ScanAdvances | src/lexer.rs:23-76 | every call consumes at least one character |
| Lexing.ScanSkipsWhitespace | src/lexer.rs:26 | the token scanned does not depend on the whitespace before it |
| Lexing.ScanPunct | src/lexer.rs:38-58 | each of `; ( ) , + - / * < > { }` yields one token of its kind with that character as literal and consumes only that character |
| Lexing.ScanAssignOrEq | src/lexer.rs:29-37 | `==` is one `Eq` token consuming two characters; any other `=` is `Assign "="` consuming one character |
| Lexing.ScanBangOrNotEq | src/lexer.rs:44-52 | `!=` is one `NotEq` token consuming two characters; any other `!` is `Bang "!"` consuming one character |
| Lexing.ScanIdentifier | src/lexer.rs:61-64 | a letter starts an identifier token whose literal is the maximal run of letters (no digits), whose kind is the keyword table's verdict on that literal, and after which the cursor is on the first non-letter |
| Lexing.ScanNumber | src/lexer.rs:65-68 | a digit starts an `Int` token whose literal is the maximal run of digits, after which the cursor is on the first non-digit |
| Lexing.ScanIllegal | src/lexer.rs:24 | any other ASCII character yields `Illegal " "` and consumes only that character |
| Lexing.ScanLiteralFromSource | src/lexer.rs:23-76 | the literal of every token other than end-of-file and illegal is the exact text it was scanned from, preceded only by whitespace |
| Lexing.ScanLiteralOfOperator | src/lexer.rs:29-52 | `=`, `==`, `!` and `!=` are spelled by the characters they consume |
| Lexing.ScanAtEnd | src/lexer.rs:59 | when only whitespace remains, the call returns `EOF " "` and leaves the cursor past the end |
| Lexing.ScanNul | src/lexer.rs:59 | a NUL inside the input yields one `EOF " "` token and moves the cursor past it, so lexing goes on after it |
| Lexing.EofForever | src/lexer.rs:59 | once only whitespace remains, every further call returns the same `EOF " "` token |
| Lexing.StreamSplit | src/lexer.rs:23-76 | `m + n` tokens are `m` tokens followed by `n` tokens from where the first `m` stopped |
| Lexing.RunEndSkip | src/lexer.rs:118-122 | entering a run anywhere inside it does not change where it ends |
| Lexing.StreamSkipWhitespace | src/lexer.rs:118-122 | whitespace under the cursor changes neither the tokens that follow nor where they end |
| Lexing.RunEndShift | src/lexer.rs:78-96 | a run looks only forward: a prefix before the cursor just shifts its end |
| Lexing.ScanShift | src/lexer.rs:23-76 | scanning after a prefix is scanning without it, shifted by the prefix's length |
| Lexing.ScanAtShift | src/lexer.rs:28-71 | the shift property for the character under the cursor |
| Lexing.ScanAtShiftSingle | src/lexer.rs:29-59 | the shift property for tokens decided by one or two characters |
| Lexing.ScanAtShiftRun | src/lexer.rs:60-70 | the shift property for identifiers and numbers |
| Lexing.StreamShift | src/lexer.rs:23-76 | the token stream after a prefix is the token stream of the rest |
| Lexing.RunEndExtend | src/lexer.rs:78-96 | a run that stops inside a text stops at the same place when more text is appended |
| Lexing.ScanExtend | src/lexer.rs:23-76 | a scan that ends at a clean cut of a text is unchanged by appending text |
| Lexing.ScanAtExtendRun | src/lexer.rs:60-70 | an identifier or number that ends inside a text is unchanged by appending text |
| Lexing.StreamExtend | src/lexer.rs:23-76 | tokens that end at a clean cut of a text are unchanged by appending text |
| Lexing.StreamConcat | src/lexer.rs:23-76 | when a text's tokens end at a clean cut followed only by whitespace, the tokens of the text plus more text are the tokens of each part in order |
| Lexing.StreamPrefixOf | src/lexer.rs:23-76 | the first tokens of a concatenation, ending at a clean cut of the first part, are the first part's tokens |
| Lexing.StreamGap | src/lexer.rs:118-122 | from inside a whitespace tail, the tokens of a concatenation are those of the second part |
| Lexing.SegmentConcat | src/lexer.rs:23-76 | two self-contained pieces of text side by side lex to the tokens of each, in order |
| Lexing.ScanLeadingWord | src/lexer.rs:60-64 | a run of letters at the start of the text, ended by a non-letter, is one token whose kind the keyword table gives |
| Lexing.ScanLeadingNumber | src/lexer.rs:65-68 | a run of digits at the start of the text, ended by a non-digit, is one `Int` token with that literal |
| Lexing.WordSpace | src/lexer.rs:60-64 | a word and one whitespace character are a self-contained piece of one token |
| Lexing.WordPunct | src/lexer.rs:38-64 | a word followed directly by a single-character token is a self-contained piece of two tokens |
| Lexing.NumberSpace | src/lexer.rs:65-68 | a numeral and one whitespace character are a self-contained piece of one `Int` token |
| Lexing.NumberPunct | src/lexer.rs:38-68 | a numeral followed directly by a single-character token is a self-contained piece of two tokens |
| Lexing.PunctAlone | src/lexer.rs:38-58 | a single-character token on its own is a self-contained piece |
| LexerTest.TestNextToken | tests/lexer_test.rs:22-107 | the test input lexes, call by call, to exactly the 59 expected tokens, with `EOF " "` last |
| Ast.ProgramString | src/ast.rs:25-32 | the loop builds exactly the program's rendering, its statements' renderings in order |
| Ast.BlockString | src/ast.rs:79-87 | the loop builds exactly the block's rendering, its statements' renderings in order |
| Ast.ExpressionString | src/ast.rs:208-359 | the `string` of each expression variant; its shape and balance are stated by `ExpressionRenderingShape` and `ExpressionBalanced` |
| Ast.BlockStatementString | src/ast.rs:79-87 | the `string` of a block; `Ast.BlockString` is proved to build it |
| Ast.StatementString | src/ast.rs:59-65 | the `string` of each statement variant; the round-trip lemmas show a rendered `let` or `return` lexes back to its tokens |
| Ast.StatementsString | src/ast.rs:25-32 | the statements' renderings in order with nothing between them; `StatementsConcat` and `StatementsCons` state its algebra |
| Ast.ProgramText | src/ast.rs:25-32 | the `string` of a program; `Ast.ProgramString` is proved to build it |
| Ast.StatementTokenLiteralPrefix | src/ast.rs:51-56 | the token literal of a `let` or `return` statement whose keyword token is spelled as usual is the start of its rendering, and the keyword table reads it back as that statement's keyword kind |
| Ast.ProgramTokenLiteralPrefix | src/ast.rs:17-23 | a program's token literal is the start of its text when its first statement is a usual `let` or `return` |
| Ast.StatementsConcat | src/ast.rs:25-32 | rendering maps concatenation of statement lists to concatenation of text, with no separators |
| Ast.StatementsCons | src/ast.rs:25-32 | a program's text is its first statement's text followed by the rest's |
| Ast.EmptyProgram | src/ast.rs:17-32 | the empty program renders as the empty string and has a single space as its token literal |
| Ast.NonIdentValueForgotten | src/ast.rs:108-159 | a `let` or `return` statement whose value is not an identifier renders as if it had no value: `<tok> <name> = ;` and `<tok> ;` |
| Ast.LetProgramRendering | tests/ast_test.rs:10-38 | the program of the string test renders as `let myVar = anotherVar;` |
| Ast.ExpressionRenderingShape | src/ast.rs:208-236 | prefix and infix expressions render starting with `(` and ending with `)`; a conditional renders starting with `if` |
| Ast.PrefixTextBalanced | src/ast.rs:234-236 | the prefix form adds one `(` and one `)` |
| Ast.InfixTextBalanced | src/ast.rs:208-215 | the infix form adds one `(` and one `)` |
| Ast.IfTextBalanced | src/ast.rs:320-332 | the conditional form adds no parenthesis of its own |
| Ast.LetTextBalanced | src/ast.rs:108-126 | the `let` form adds no parenthesis of its own |
| Ast.ReturnTextBalanced | src/ast.rs:146-159 | the `return` form adds no parenthesis of its own |
| Ast.ExpressionBalanced | src/ast.rs:350-359 | an expression with parenthesis-free names, literals and operators renders with as many `(` as `)` |
| Ast.StatementBalanced | src/ast.rs:59-65 | a statement with parenthesis-free leaves renders with balanced parentheses |
| Ast.StatementsBalanced | src/ast.rs:79-87 | a statement list with parenthesis-free leaves renders with balanced parentheses |
| RoundTrip.ScanLeadingIdentifier | src/lexer.rs:60-64 | a non-keyword run of letters at the start of the input, followed by a non-letter, is one identifier token |
| RoundTrip.IdentifierThenSpace | src/lexer.rs:60-64 | an identifier followed by a space is one identifier token, and the cursor stops on the space |
| RoundTrip.IdentifierThenSemicolon | src/lexer.rs:38-64 | an identifier followed by `;` lexes to the identifier, the semicolon and end of file |
| RoundTrip.LetText | src/ast.rs:108-126 | the text `let <name> = <value>;` lexes to the keyword, the name, `=`, the value, `;` and end of file |
| RoundTrip.ReturnText | src/ast.rs:146-159 | the text `return <value>;` lexes to the keyword, the value, `;` and end of file |
| RoundTrip.EmptyReturnText | src/ast.rs:146-159 | the text `return ;` lexes to the keyword, `;` and end of file |
| RoundTrip.LetTextAscii | src/lexer.rs:11-21 | a rendered `let` statement over identifier names is ASCII, so a lexer can be built over it |
| RoundTrip.LetStatementRoundTrip | src/ast.rs:108-126 | `let <name> = <value>;`, rendered and lexed, gives back the keyword, an identifier token for the name, `=`, one for the value, `;` and then end of file; these are the statement's own tokens when its identifiers carry the tokens the lexer makes |
| RoundTrip.ReturnStatementRoundTrip | src/ast.rs:146-159 | `return <value>;`, rendered and lexed, gives back the keyword, an identifier token for the value, `;` and then end of file; this is the value's own token when it carries the token the lexer makes |
| RoundTrip.EmptyReturnRoundTrip | src/ast.rs:146-159 | a `return` statement without a value lexes back to the keyword, `;` and end of file |
| RoundTrip.RenderedLetOpening | src/ast.rs:108-126 | a rendered `let` statement is ASCII, and its first three tokens are the keyword, the name and `=` |
| RoundTrip.ParseLetFrom | src/parser.rs:77-98 | a new parser over a new lexer rejects unless the second and third tokens are an identifier and `=`; otherwise it yields the `let` statement named by the second token |
| RoundTrip.ParseRenderedLet | src/parser.rs:77-98 | parsing a rendered `let` statement gets past both checks; it holds the keyword token, the name's text and the identifier token the lexer made for it, so exactly the given name when the name carries that token |
| Parsing.Parser.constructor | src/parser.rs:14-25 | after construction, `currentToken` and `peekToken` are the lexer's first two tokens from where it stood |
| Parsing.Parser.NextToken | src/parser.rs:106-109 | the peek token becomes current and the lexer supplies exactly one more token, as `Scan` says |
| Parsing.Parser.ExpectPeek | src/parser.rs:111-126 | returns exactly what `peek_token_is` said before the call. Then it advances once, and `current_token_is` holds of the new current token. Otherwise neither the parser nor the lexer changes |
| Parsing.Parser.ParseLetStatement | src/parser.rs:77-104 | rejects without moving when no identifier follows `let`. With an identifier but no `=` after it, rejects having advanced once. Otherwise yields the statement with the `let` token and the identifier's token and literal as its name, and stands on the `=` |

## Left out

- Non-ASCII input: the source classifies single bytes cast to `char` with Unicode predicates and slices the text at byte offsets. The model's `Lexer` constructor requires ASCII input, and letters are `A-Z`, `a-z` and `_`, digits `0-9`.
- Lexing.Lexer: the `usize` width of `position` and `read_position` is not modelled. Each end-of-file call still moves the cursor on by one, so the offsets grow without bound.
- A NUL character inside the input yields one `EOF " "` token there, as in the source, and lexing continues after it (`Lexing.ScanNul`).
- `Parser::parse_program` and `parse_statement`: every non-`let` arm is `todo!()`. The loop stops only on `EOF "0"`, which the lexer never produces, so there is no terminating parse to model.
- The expression parser, `return` and expression statement parsing, and the parser's error list: none of these exist in the source.
- Parsing.Parser.ParseLetStatement: the source panics at `todo!()` once both checks pass. The model returns the statement built so far as `Unfinished`, with value `None`. The source's initial value is written `()`, which does not type-check as an expression.
- `ExpressionVariants::token_literal` and the expression arm of `StatementVariant::token_literal` are `todo!()` panics. `Ast.StatementTokenLiteral` excludes expression statements by its precondition, and `Ast.ProgramTokenLiteral` excludes a first statement of that kind.
- The per-node `token_literal` accessors of the structs just return the stored token's literal. In the model they are the datatype fields.
- `statement_node` and `expression_node` are marker methods with no behaviour.
- `IntegerLiteral.value` is an unbounded `int`. The source's `i64` is never computed from text, so its width is never exercised.
- The lexer test's input is written as a concatenation of small pieces. Its whitespace (the Rust literal's indentation) is kept character for character.
- `src/repl.rs` and `src/main.rs` do terminal I/O, and `src/TAS.rs` is an abandoned draft that does not compile. None of them is modelled.
- The tests under `src/` (`src/lexer_test.rs`, `src/ast_test.rs`, `src/parser_test.rs`) are out of date. Only the copies under `tests/` are used.
