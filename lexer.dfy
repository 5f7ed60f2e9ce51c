/**
 * The lexer: a cursor over the source text that hands out one token per
 * call. `Scan` is the pure specification of one call to `next_token` in
 * terms of the cursor position; the `Lexer` class is the state machine of
 * the source, proved to follow `Scan` step by step.
 */
module Lexing {
  import opened Tokens

  // ---------------------------------------------------------------------
  // Character classes
  // ---------------------------------------------------------------------

  /** The four characters `skip_whitespace` consumes. */
  predicate IsWhitespace(c: char) {
    c == ' ' || c == '\t' || c == '\n' || c == '\r'
  }

  /** `is_letter` on ASCII input: a Latin letter or an underscore. */
  predicate IsLetter(c: char) {
    ('a' <= c <= 'z') || ('A' <= c <= 'Z') || c == '_'
  }

  /** `is_digit` on ASCII input. */
  predicate IsDigit(c: char) {
    '0' <= c <= '9'
  }

  predicate IsAscii(s: string) {
    forall i :: 0 <= i < |s| ==> s[i] < 128 as char
  }

  /** The characters that always form a token on their own. */
  predicate IsPunct(c: char) {
    c in {';', '(', ')', ',', '+', '-', '/', '*', '<', '>', '{', '}'}
  }

  /** The kind of each single-character token. */
  function PunctKind(c: char): (t: TokenType)
    requires IsPunct(c)
    ensures t in {Semicolon, LParen, RParen, Comma, Plus, Minus, Slash, Asterisk, Lt, Gt, LBrace, RBrace}
  {
    match c
    case ';' => Semicolon
    case '(' => LParen
    case ')' => RParen
    case ',' => Comma
    case '+' => Plus
    case '-' => Minus
    case '/' => Slash
    case '*' => Asterisk
    case '<' => Lt
    case '>' => Gt
    case '{' => LBrace
    case '}' => RBrace
  }

  // ---------------------------------------------------------------------
  // Specification of the cursor
  // ---------------------------------------------------------------------

  /** The value `read_char` stores in `ch` when it reads offset `i`: the byte there, or NUL past the end. */
  function CharAt(input: string, i: nat): (c: char)
    ensures i < |input| ==> c == input[i]
    ensures i >= |input| ==> c == '\0'
  {
    if i < |input| then input[i] else '\0'
  }

  /** The value `peek_char` returns for look-ahead offset `i`: the byte there, or the digit '0' past the end. */
  function PeekAt(input: string, i: nat): (c: char)
    ensures i < |input| ==> c == input[i]
    ensures i >= |input| ==> c == '0'
  {
    if i < |input| then input[i] else '0'
  }

  /** The end of the maximal run of characters satisfying `p` that starts at `i`. */
  function RunEnd(input: string, i: nat, p: char -> bool): (e: nat)
    decreases |input| - i
    ensures i <= e
    ensures e == i || e <= |input|
    ensures forall k :: i <= k < e ==> p(input[k])
    ensures e < |input| ==> !p(input[e])
  {
    if i < |input| && p(input[i]) then RunEnd(input, i + 1, p) else i
  }

  /** A run that ends where `p` first fails is the one `RunEnd` finds: maximal runs are unique. */
  lemma {:induction false} RunEndAt(input: string, i: nat, j: nat, p: char -> bool)
    requires i <= j <= |input|
    requires forall k :: i <= k < j ==> p(input[k])
    requires j < |input| ==> !p(input[j])
    ensures RunEnd(input, i, p) == j
    decreases j - i
  {
    if i < j {
      RunEndAt(input, i + 1, j, p);
    }
  }

  /**
   * One call of `next_token` with the cursor at `pos`: the token returned
   * and the position the cursor is left at. Whitespace is skipped first.
   */
  function Scan(input: string, pos: nat): (Token, nat) {
    ScanAt(input, RunEnd(input, pos, IsWhitespace))
  }

  /** The token under a cursor at `s` that is not on whitespace, and where the cursor ends up. */
  function ScanAt(input: string, s: nat): (Token, nat) {
    var c := CharAt(input, s);
    if c == '=' then
      if PeekAt(input, s + 1) == '=' then (Token(Eq, "=="), s + 2) else (NewToken(Assign, c), s + 1)
    else if c == '!' then
      if PeekAt(input, s + 1) == '=' then (Token(NotEq, "!="), s + 2) else (NewToken(Bang, c), s + 1)
    else if IsPunct(c) then
      (NewToken(PunctKind(c), c), s + 1)
    else if c == '\0' then
      (NewToken(Eof, ' '), s + 1)
    else if IsLetter(c) then
      var e := RunEnd(input, s, IsLetter);
      (Token(Serialize(input[s..e]), input[s..e]), e)
    else if IsDigit(c) then
      var e := RunEnd(input, s, IsDigit);
      (Token(Int, input[s..e]), e)
    else
      (NewToken(Illegal, ' '), s + 1)
  }

  /** The text a cursor at `pos` has still to read: nothing once it is past the end. */
  function Rest(input: string, pos: nat): (r: string)
    decreases pos
  {
    if pos == 0 then input else if |input| == 0 then [] else Rest(input[1..], pos - 1)
  }

  /** The rest of the text is the suffix from `pos`, or empty past the end. */
  lemma {:induction false} RestSuffix(input: string, pos: nat)
    ensures pos <= |input| ==> Rest(input, pos) == input[pos..]
    ensures pos > |input| ==> Rest(input, pos) == []
    decreases pos
  {
    if pos > 0 && |input| > 0 {
      RestSuffix(input[1..], pos - 1);
      if pos <= |input| {
        assert input[1..][pos - 1..] == input[pos..];
      }
    }
  }

  /** Reading on for `a` characters in what is left at `pos` leaves what is left at `pos + a`. */
  lemma RestRest(input: string, pos: nat, a: nat)
    ensures Rest(Rest(input, pos), a) == Rest(input, pos + a)
  {
    RestSuffix(input, pos);
    RestSuffix(input, pos + a);
    if pos <= |input| {
      RestDropDrop(input, pos, a);
    } else {
      RestEmpty(a);
    }
  }

  /** What is left of a suffix is a later suffix, or nothing. */
  lemma RestDropDrop(input: string, pos: nat, a: nat)
    requires pos <= |input|
    ensures Rest(input[pos..], a) == if pos + a <= |input| then input[pos + a..] else []
  {
    RestSuffix(input[pos..], a);
    if pos + a <= |input| {
      assert input[pos..][a..] == input[pos + a..];
    }
  }

  /** Nothing is left of empty text. */
  lemma RestEmpty(a: nat)
    ensures Rest([], a) == []
  {
  }

  /** What is left after a prefix, at an offset into the rest, is what is left of the rest there. */
  lemma RestShift(p: string, s: string, i: nat)
    ensures Rest(p + s, |p| + i) == Rest(s, i)
  {
    RestSuffix(p + s, |p| + i);
    RestSuffix(s, i);
    if i <= |s| {
      assert (p + s)[|p| + i..] == s[i..];
    }
  }

  /** One call of `next_token` with the cursor on the first character of `t`: the token, and how far the cursor moves. */
  function ScanText(t: string): (Token, nat) {
    Scan(t, 0)
  }

  /** One call of `next_token` on the text ahead of the cursor: the token, how far the cursor moves, and the text then ahead. */
  function LexStep(t: string): (Token, nat, string) {
    (ScanText(t).0, ScanText(t).1, Rest(t, ScanText(t).1))
  }

  /**
   * The items handed out by `n` steps of `step` from state `s`; each step
   * yields an item, a distance travelled and the state the next step starts in.
   */
  function Steps<S>(step: S -> (Token, nat, S), s: S, n: nat): (ts: seq<Token>)
    decreases n
    ensures |ts| == n
  {
    if n == 0 then [] else [step(s).0] + Steps(step, step(s).2, n - 1)
  }

  /** The distance `n` steps of `step` from `s` travel. */
  function Consumed<S>(step: S -> (Token, nat, S), s: S, n: nat): nat
    decreases n
  {
    if n == 0 then 0 else step(s).1 + Consumed(step, step(s).2, n - 1)
  }

  /** The state `n` steps of `step` from `s` end in. */
  function Final<S>(step: S -> (Token, nat, S), s: S, n: nat): S
    decreases n
  {
    if n == 0 then s else Final(step, step(s).2, n - 1)
  }

  /** `m + n` steps are `m` steps and then `n` more from where the first `m` ended, whatever the step function. */
  lemma {:induction false} StepsSplit<S>(step: S -> (Token, nat, S), s: S, m: nat, n: nat)
    ensures Steps(step, s, m + n) == Steps(step, s, m) + Steps(step, Final(step, s, m), n)
    ensures Consumed(step, s, m + n) == Consumed(step, s, m) + Consumed(step, Final(step, s, m), n)
    decreases m
  {
    if m > 0 {
      var u := step(s).2;
      StepsSplit(step, u, m - 1, n);
      assert Steps(step, s, m + n) == [step(s).0] + Steps(step, u, (m - 1) + n);
      ConcatAssociative([step(s).0], Steps(step, u, m - 1), Steps(step, Final(step, u, m - 1), n));
    }
  }

  /** The next `n` tokens handed out from position `pos`. */
  function TokenStream(input: string, pos: nat, n: nat): (ts: seq<Token>)
    ensures |ts| == n
  {
    Steps(LexStep, Rest(input, pos), n)
  }

  /** The cursor position after `n` tokens have been handed out from `pos`. */
  function After(input: string, pos: nat, n: nat): nat {
    pos + Consumed(LexStep, Rest(input, pos), n)
  }

  /** A step on text that leaves as its next state the text past the distance it travelled. */
  ghost predicate LeavesRest(step: string -> (Token, nat, string)) {
    forall t :: step(t).2 == Rest(t, step(t).1)
  }

  /** Steps that leave the rest of the text end in the text left at the position they end at. */
  lemma {:induction false} FinalRestOf(step: string -> (Token, nat, string), input: string, pos: nat, n: nat)
    requires LeavesRest(step)
    ensures Final(step, Rest(input, pos), n) == Rest(input, pos + Consumed(step, Rest(input, pos), n))
    decreases n
  {
    if n > 0 {
      var a := step(Rest(input, pos)).1;
      RestRest(input, pos, a);
      FinalRestOf(step, input, pos + a, n - 1);
    }
  }

  /** So steps that leave the rest of the text go on from the text left at the position they end at. */
  lemma StepsFromRest(step: string -> (Token, nat, string), input: string, pos: nat, m: nat, n: nat)
    requires LeavesRest(step)
    ensures var q := pos + Consumed(step, Rest(input, pos), m);
      && Steps(step, Final(step, Rest(input, pos), m), n) == Steps(step, Rest(input, q), n)
      && Consumed(step, Final(step, Rest(input, pos), m), n) == Consumed(step, Rest(input, q), n)
  {
    FinalRestOf(step, input, pos, m);
  }

  /** `StepsSplit` for steps that leave the rest of the text, stated on positions in the text. */
  lemma StepsSplitRest(step: string -> (Token, nat, string), input: string, pos: nat, m: nat, n: nat)
    requires LeavesRest(step)
    ensures var q := pos + Consumed(step, Rest(input, pos), m);
      && Steps(step, Rest(input, pos), m + n) == Steps(step, Rest(input, pos), m) + Steps(step, Rest(input, q), n)
      && pos + Consumed(step, Rest(input, pos), m + n) == q + Consumed(step, Rest(input, q), n)
  {
    StepsSplit(step, Rest(input, pos), m, n);
    StepsFromRest(step, input, pos, m, n);
  }

  /** The lexer's step leaves the rest of the text. */
  lemma LexStepLeavesRest()
    ensures LeavesRest(LexStep)
  {
  }

  /** A scan looks only at the text ahead of the cursor. */
  lemma ScanLocal(input: string, pos: nat)
    ensures Scan(input, pos) == (ScanText(Rest(input, pos)).0, pos + ScanText(Rest(input, pos)).1)
  {
    RestSuffix(input, pos);
    ScanLocalInside(input, pos);
    ScanPastEnd(input, pos);
  }

  /** Inside the text, a scan is the scan of the suffix from the cursor, shifted to the cursor. */
  lemma ScanLocalInside(input: string, pos: nat)
    ensures pos <= |input| ==> Scan(input, pos) == (ScanText(input[pos..]).0, pos + ScanText(input[pos..]).1)
  {
    if pos <= |input| {
      var p, s := input[..pos], input[pos..];
      assert p + s == input;
      ScanShift(p, s, 0);
    }
  }

  /** Past the end, a scan hands out end of file and moves on by one, as it does on empty text. */
  lemma ScanPastEnd(input: string, pos: nat)
    ensures pos > |input| ==> Scan(input, pos) == (ScanText([]).0, pos + ScanText([]).1)
  {
  }

  /** One call, then the rest: the first token is `Scan`'s, and the others follow from where it stopped. */
  lemma StreamUnfold(input: string, pos: nat, k: nat)
    ensures TokenStream(input, pos, k + 1) == [Scan(input, pos).0] + TokenStream(input, Scan(input, pos).1, k)
    ensures After(input, pos, k + 1) == After(input, Scan(input, pos).1, k)
  {
    StreamSplit(input, pos, 1, k);
    StreamOne(input, pos);
  }

  /** A single token from `pos` is `Scan`'s. */
  lemma StreamOne(input: string, pos: nat)
    ensures TokenStream(input, pos, 1) == [Scan(input, pos).0]
    ensures After(input, pos, 1) == Scan(input, pos).1
  {
    ScanLocal(input, pos);
  }

  /** The first two tokens from `pos` are the two `Scan` hands out one after the other. */
  lemma StreamTwo(input: string, pos: nat)
    ensures TokenStream(input, pos, 2) == [Scan(input, pos).0, Scan(input, Scan(input, pos).1).0]
    ensures After(input, pos, 2) == Scan(input, Scan(input, pos).1).1
  {
    var q := Scan(input, pos).1;
    StreamUnfold(input, pos, 1);
    StreamOne(input, q);
    assert [Scan(input, pos).0] + [Scan(input, q).0] == [Scan(input, pos).0, Scan(input, q).0];
  }

  /** The cursor never moves back, and each call moves it forward. */
  lemma {:induction false} AfterAdvances(input: string, pos: nat, n: nat)
    ensures After(input, pos, n) >= pos
    ensures n > 0 ==> After(input, pos, n) > pos
    decreases n
  {
    if n > 0 {
      StreamUnfold(input, pos, n - 1);
      ScanAdvances(input, pos);
      AfterAdvances(input, Scan(input, pos).1, n - 1);
    }
  }

  /** No tokens handed out leaves the cursor where it was. */
  lemma StreamEmpty(input: string, pos: nat)
    ensures TokenStream(input, pos, 0) == [] && After(input, pos, 0) == pos
  {
  }

  // ---------------------------------------------------------------------
  // The state machine
  // ---------------------------------------------------------------------

  class Lexer {
    const input: string
    var position: nat
    var readPosition: nat
    var ch: char

    /** `ch` always holds the character at `position`, and `readPosition` is one ahead. */
    ghost predicate Valid()
      reads this
    {
      readPosition == position + 1 && ch == CharAt(input, position)
    }

    /** `Lexer::new`: the cursor starts on the first character of the input. */
    constructor (input: string)
      requires IsAscii(input)
      ensures this.input == input
      ensures Valid() && position == 0
    {
      this.input := input;
      position := 0;
      readPosition := 0;
      ch := ' ';
      new;
      ReadChar();
    }

    /** `read_char`: load the character at `readPosition` (NUL past the end) and move both offsets on by one. */
    method ReadChar()
      modifies this
      ensures position == old(readPosition) && readPosition == old(readPosition) + 1
      ensures ch == CharAt(input, old(readPosition))
    {
      if readPosition >= |input| {
        ch := '\0';
      } else {
        ch := input[readPosition];
      }
      position := readPosition;
      readPosition := readPosition + 1;
    }

    /** `peek_char`: the character after the current one, without moving; '0' past the end. */
    function PeekChar(): (c: char)
      reads this
      ensures c == PeekAt(input, readPosition)
    {
      if readPosition >= |input| then '0' else input[readPosition]
    }

    /** `skip_whitespace`: consume exactly the maximal run of whitespace under the cursor. */
    method SkipWhitespace()
      requires Valid()
      modifies this
      ensures Valid()
      ensures position == RunEnd(input, old(position), IsWhitespace)
      ensures !IsWhitespace(ch)
    {
      while IsWhitespace(ch)
        invariant Valid()
        invariant RunEnd(input, position, IsWhitespace) == RunEnd(input, old(position), IsWhitespace)
        decreases |input| - position
      {
        ReadChar();
      }
    }

    /** `read_identifier`: consume the maximal run of letters and return it. */
    method ReadIdentifier() returns (lit: string)
      requires Valid() && IsLetter(ch)
      modifies this
      ensures Valid()
      ensures position == RunEnd(input, old(position), IsLetter)
      ensures lit == input[old(position)..position]
    {
      var start := position;
      while IsLetter(ch)
        invariant Valid()
        invariant start <= position <= |input|
        invariant RunEnd(input, position, IsLetter) == RunEnd(input, start, IsLetter)
        decreases |input| - position
      {
        ReadChar();
      }
      lit := input[start..position];
    }

    /** `read_number`: consume the maximal run of digits and return it. */
    method ReadNumber() returns (lit: string)
      requires Valid() && IsDigit(ch)
      modifies this
      ensures Valid()
      ensures position == RunEnd(input, old(position), IsDigit)
      ensures lit == input[old(position)..position]
    {
      var start := position;
      while IsDigit(ch)
        invariant Valid()
        invariant start <= position <= |input|
        invariant RunEnd(input, position, IsDigit) == RunEnd(input, start, IsDigit)
        decreases |input| - position
      {
        ReadChar();
      }
      lit := input[start..position];
    }

    /** `next_token`: hand out the token under the cursor and move past it, as `Scan` says. */
    method NextToken() returns (tok: Token)
      requires Valid()
      modifies this
      ensures Valid()
      ensures (tok, position) == Scan(input, old(position))
    {
      tok := NewToken(Illegal, ' ');
      SkipWhitespace();
      match ch {
      case '=' =>
        if PeekChar() == '=' {
          ReadChar();
          tok := Token(Eq, "==");
        } else {
          tok := NewToken(Assign, ch);
        }
      case ';' => tok := NewToken(Semicolon, ch);
      case '(' => tok := NewToken(LParen, ch);
      case ')' => tok := NewToken(RParen, ch);
      case ',' => tok := NewToken(Comma, ch);
      case '+' => tok := NewToken(Plus, ch);
      case '-' => tok := NewToken(Minus, ch);
      case '!' =>
        if PeekChar() == '=' {
          ReadChar();
          tok := Token(NotEq, "!=");
        } else {
          tok := NewToken(Bang, ch);
        }
      case '/' => tok := NewToken(Slash, ch);
      case '*' => tok := NewToken(Asterisk, ch);
      case '<' => tok := NewToken(Lt, ch);
      case '>' => tok := NewToken(Gt, ch);
      case '{' => tok := NewToken(LBrace, ch);
      case '}' => tok := NewToken(RBrace, ch);
      case '\0' => tok := NewToken(Eof, ' ');
      case _ =>
        if IsLetter(ch) {
          var lit := ReadIdentifier();
          tok := Token(Serialize(lit), lit);
          return;
        } else if IsDigit(ch) {
          var lit := ReadNumber();
          tok := Token(Int, lit);
          return;
        }
      }
      ReadChar();
    }
  }

  // ---------------------------------------------------------------------
  // Properties of a single scan
  // ---------------------------------------------------------------------

  /** Every call consumes at least one character, so the cursor strictly advances. */
  lemma ScanAdvances(input: string, pos: nat)
    ensures Scan(input, pos).1 > pos
  {
    var s := RunEnd(input, pos, IsWhitespace);
    if CharAt(input, s) !in {'=', '!', '\0'} && !IsPunct(CharAt(input, s)) && IsLetter(CharAt(input, s)) {
      assert RunEnd(input, s, IsLetter) > s;
    }
    if CharAt(input, s) !in {'=', '!', '\0'} && !IsPunct(CharAt(input, s)) && IsDigit(CharAt(input, s)) {
      assert RunEnd(input, s, IsDigit) > s;
    }
  }

  /** Whitespace before a token is skipped and never changes what is scanned. */
  lemma ScanSkipsWhitespace(input: string, pos: nat)
    ensures Scan(input, pos) == Scan(input, RunEnd(input, pos, IsWhitespace))
  {
  }

  /** Each of `; ( ) , + - / * < > { }` is exactly one token of its kind, and only it is consumed. */
  lemma ScanPunct(input: string, pos: nat)
    requires pos < |input| && IsPunct(input[pos])
    ensures Scan(input, pos) == (NewToken(PunctKind(input[pos]), input[pos]), pos + 1)
  {
  }

  /** `=` followed by `=` is one `==` token over both characters; otherwise `=` alone is consumed. */
  lemma ScanAssignOrEq(input: string, pos: nat)
    requires pos < |input| && input[pos] == '='
    ensures pos + 1 < |input| && input[pos + 1] == '=' ==> Scan(input, pos) == (Token(Eq, "=="), pos + 2)
    ensures !(pos + 1 < |input| && input[pos + 1] == '=') ==> Scan(input, pos) == (Token(Assign, "="), pos + 1)
  {
  }

  /** `!` followed by `=` is one `!=` token over both characters; otherwise `!` alone is consumed. */
  lemma ScanBangOrNotEq(input: string, pos: nat)
    requires pos < |input| && input[pos] == '!'
    ensures pos + 1 < |input| && input[pos + 1] == '=' ==> Scan(input, pos) == (Token(NotEq, "!="), pos + 2)
    ensures !(pos + 1 < |input| && input[pos + 1] == '=') ==> Scan(input, pos) == (Token(Bang, "!"), pos + 1)
  {
  }

  /**
   * A letter or `_` starts an identifier: the maximal run of letters (no digits),
   * classified by the keyword table, with the cursor left on the first non-letter.
   */
  lemma ScanIdentifier(input: string, pos: nat)
    requires pos < |input| && IsLetter(input[pos])
    ensures var (tok, next) := Scan(input, pos);
      && pos < next <= |input|
      && tok.literal == input[pos..next]
      && tok.typ == Serialize(tok.literal)
      && (forall k :: pos <= k < next ==> IsLetter(input[k]) && !IsDigit(input[k]))
      && (next < |input| ==> !IsLetter(input[next]))
  {
  }

  /** A digit starts an integer literal: the maximal run of digits. */
  lemma ScanNumber(input: string, pos: nat)
    requires pos < |input| && IsDigit(input[pos])
    ensures var (tok, next) := Scan(input, pos);
      && pos < next <= |input|
      && tok == Token(Int, input[pos..next])
      && (forall k :: pos <= k < next ==> IsDigit(input[k]))
      && (next < |input| ==> !IsDigit(input[next]))
  {
  }

  /** A non-empty run of letters: the text of an identifier or keyword. */
  predicate IsWord(s: string) {
    |s| > 0 && forall k :: 0 <= k < |s| ==> IsLetter(s[k])
  }

  /** A non-empty run of digits: the text of an integer literal. */
  predicate IsNumeral(s: string) {
    |s| > 0 && forall k :: 0 <= k < |s| ==> IsDigit(s[k])
  }

  /** A word at the start of the input, followed by a character that ends it, is scanned as one token classified by the keyword table. */
  lemma ScanLeadingWord(w: string, rest: string)
    requires IsWord(w)
    requires |rest| > 0 && !IsLetter(rest[0])
    ensures Scan(w + rest, 0) == (Token(Serialize(w), w), |w|)
  {
    var input := w + rest;
    RunEndAt(input, 0, 0, IsWhitespace);
    RunEndAt(input, 0, |w|, IsLetter);
    assert input[0..|w|] == w;
  }

  /** A numeral at the start of the input, followed by a character that ends it, is scanned as one integer token. */
  lemma ScanLeadingNumber(d: string, rest: string)
    requires IsNumeral(d)
    requires |rest| > 0 && !IsDigit(rest[0])
    ensures Scan(d + rest, 0) == (Token(Int, d), |d|)
  {
    var input := d + rest;
    RunEndAt(input, 0, 0, IsWhitespace);
    RunEndAt(input, 0, |d|, IsDigit);
    assert input[0..|d|] == d;
  }

  /** The characters that begin some token other than an illegal one. */
  predicate StartsToken(c: char) {
    c == '=' || c == '!' || IsPunct(c) || c == '\0' || IsLetter(c) || IsDigit(c)
  }

  /** Any other character is an illegal token with literal " ", and only it is consumed. */
  lemma ScanIllegal(input: string, pos: nat)
    requires pos < |input| && !IsWhitespace(input[pos]) && !StartsToken(input[pos])
    ensures Scan(input, pos) == (Token(Illegal, " "), pos + 1)
  {
  }

  /**
   * Every token other than end-of-file and illegal carries as its literal the
   * exact source text it was scanned from, preceded only by whitespace.
   */
  lemma ScanLiteralFromSource(input: string, pos: nat)
    ensures var (tok, next) := Scan(input, pos);
      tok.typ != Eof && tok.typ != Illegal ==>
        && pos + |tok.literal| <= next <= |input|
        && tok.literal == input[next - |tok.literal|..next]
        && (forall k :: pos <= k < next - |tok.literal| ==> IsWhitespace(input[k]))
  {
    var st := RunEnd(input, pos, IsWhitespace);
    var c := CharAt(input, st);
    if c == '=' || c == '!' {
      ScanLiteralOfOperator(input, st);
    } else if IsPunct(c) || c == '\0' {
    } else if IsLetter(c) {
      assert |input[st..RunEnd(input, st, IsLetter)]| == RunEnd(input, st, IsLetter) - st;
    } else if IsDigit(c) {
      assert |input[st..RunEnd(input, st, IsDigit)]| == RunEnd(input, st, IsDigit) - st;
    }
  }

  /** The operators `=`, `==`, `!`, `!=` are spelled by the characters they were scanned from. */
  lemma ScanLiteralOfOperator(input: string, st: nat)
    requires st < |input| && (input[st] == '=' || input[st] == '!')
    ensures ScanAt(input, st).1 <= |input|
    ensures ScanAt(input, st).0.literal == input[st..ScanAt(input, st).1]
  {
  }

  /** When only whitespace is left, the scan yields end-of-file (literal " ") and leaves the cursor past the end. */
  lemma ScanAtEnd(input: string, pos: nat)
    requires forall k :: pos <= k < |input| ==> IsWhitespace(input[k])
    ensures Scan(input, pos).0 == Token(Eof, " ")
    ensures Scan(input, pos).1 > |input|
  {
  }

  /**
   * A NUL character inside the input is read as end of file, but only for
   * that one call: one `EOF " "` token, and the cursor moves on past it.
   */
  lemma ScanNul(input: string, pos: nat)
    requires pos < |input| && input[pos] == '\0'
    ensures Scan(input, pos) == (Token(Eof, " "), pos + 1)
  {
  }

  /** Past the end, every further call returns the same end-of-file token. */
  lemma {:induction false} EofForever(input: string, pos: nat, n: nat)
    requires forall k :: pos <= k < |input| ==> IsWhitespace(input[k])
    ensures TokenStream(input, pos, n) == seq(n, _ => Token(Eof, " "))
    decreases n
  {
    if n > 0 {
      ScanAtEnd(input, pos);
      StreamUnfold(input, pos, n - 1);
      EofForever(input, Scan(input, pos).1, n - 1);
    }
  }

  // ---------------------------------------------------------------------
  // Properties of the token stream
  // ---------------------------------------------------------------------

  /** Handing out `m + n` tokens is handing out `m`, then `n` more from where the first `m` stopped. */
  lemma {:induction false} StreamSplit(input: string, pos: nat, m: nat, n: nat)
    ensures TokenStream(input, pos, m + n)
         == TokenStream(input, pos, m) + TokenStream(input, After(input, pos, m), n)
    ensures After(input, pos, m + n) == After(input, After(input, pos, m), n)
  {
    LexStepLeavesRest();
    StepsSplitRest(LexStep, input, pos, m, n);
  }

  /** The `m + 1`st token is the one `Scan` hands out where the first `m` stopped. */
  lemma StreamStep(input: string, pos: nat, m: nat)
    ensures TokenStream(input, pos, m + 1) == TokenStream(input, pos, m) + [Scan(input, After(input, pos, m)).0]
    ensures After(input, pos, m + 1) == Scan(input, After(input, pos, m)).1
  {
    StreamSplit(input, pos, m, 1);
    StreamUnfold(input, After(input, pos, m), 0);
  }

  lemma ConcatAssociative<T>(a: seq<T>, b: seq<T>, c: seq<T>)
    ensures a + (b + c) == (a + b) + c
  {
  }

  /** A run of `f` characters may be entered anywhere inside it without changing where it ends. */
  lemma {:induction false} RunEndSkip(input: string, i: nat, j: nat, f: char -> bool)
    requires i <= j <= |input|
    requires forall k :: i <= k < j ==> f(input[k])
    ensures RunEnd(input, i, f) == RunEnd(input, j, f)
    decreases j - i
  {
    if i < j {
      RunEndSkip(input, i + 1, j, f);
    }
  }

  /** Whitespace under the cursor never changes the tokens that follow. */
  lemma StreamSkipWhitespace(input: string, i: nat, j: nat, n: nat)
    requires i <= j <= |input|
    requires forall k :: i <= k < j ==> IsWhitespace(input[k])
    ensures TokenStream(input, i, n) == TokenStream(input, j, n)
    ensures n > 0 ==> After(input, i, n) == After(input, j, n)
  {
    if n > 0 {
      RunEndSkip(input, i, j, IsWhitespace);
      StreamUnfold(input, i, n - 1);
      StreamUnfold(input, j, n - 1);
    }
  }

  /** A run looks only forward: text before the cursor does not affect it. */
  lemma {:induction false} RunEndShift(p: string, s: string, i: nat, f: char -> bool)
    ensures RunEnd(p + s, |p| + i, f) == |p| + RunEnd(s, i, f)
    decreases |s| - i
  {
    if i < |s| && f(s[i]) {
      RunEndShift(p, s, i + 1, f);
    }
  }

  /** The lexer looks only forward: scanning after a prefix is scanning without it. */
  lemma ScanShift(p: string, s: string, i: nat)
    ensures Scan(p + s, |p| + i) == (Scan(s, i).0, |p| + Scan(s, i).1)
  {
    RunEndShift(p, s, i, IsWhitespace);
    ScanAtShift(p, s, RunEnd(s, i, IsWhitespace));
  }

  lemma ScanAtShift(p: string, s: string, st: nat)
    ensures ScanAt(p + s, |p| + st) == (ScanAt(s, st).0, |p| + ScanAt(s, st).1)
  {
    var c := CharAt(s, st);
    if c == '=' || c == '!' || IsPunct(c) || c == '\0' {
      ScanAtShiftSingle(p, s, st);
    } else if IsLetter(c) {
      ScanAtShiftRun(p, s, st, IsLetter);
    } else if IsDigit(c) {
      ScanAtShiftRun(p, s, st, IsDigit);
    } else {
      ScanAtShiftSingle(p, s, st);
    }
  }

  /** The shift property for the tokens decided by one or two characters. */
  lemma ScanAtShiftSingle(p: string, s: string, st: nat)
    requires !IsLetter(CharAt(s, st)) || CharAt(s, st) == '\0'
    requires !IsDigit(CharAt(s, st)) || CharAt(s, st) == '\0'
    ensures ScanAt(p + s, |p| + st) == (ScanAt(s, st).0, |p| + ScanAt(s, st).1)
  {
    assert CharAt(p + s, |p| + st) == CharAt(s, st);
    assert PeekAt(p + s, |p| + st + 1) == PeekAt(s, st + 1);
  }

  /** The shift property for identifiers and numbers, whose extent is a run of `f` characters. */
  lemma ScanAtShiftRun(p: string, s: string, st: nat, f: char -> bool)
    requires st < |s| && f(s[st])
    requires f == IsLetter || (f == IsDigit && !IsLetter(s[st]))
    ensures ScanAt(p + s, |p| + st) == (ScanAt(s, st).0, |p| + ScanAt(s, st).1)
  {
    assert CharAt(p + s, |p| + st) == s[st];
    RunEndShift(p, s, st, f);
    SliceShift(p, s, st, RunEnd(s, st, f));
  }

  /** A slice of the text after a prefix, shifted by the prefix's length, is the same slice of the text. */
  lemma SliceShift(p: string, s: string, i: nat, j: nat)
    requires i <= j <= |s|
    ensures (p + s)[|p| + i..|p| + j] == s[i..j]
  {
    assert (p + s)[|p| + i..|p| + j] == s[i..j];
  }

  /** The token stream after a prefix is the token stream of the rest. */
  lemma StreamShift(p: string, s: string, i: nat, n: nat)
    ensures TokenStream(p + s, |p| + i, n) == TokenStream(s, i, n)
    ensures After(p + s, |p| + i, n) == |p| + After(s, i, n)
  {
    RestShift(p, s, i);
  }

  /** A run that stops inside `a` stops at the same place when more text follows `a`. */
  lemma {:induction false} RunEndExtend(a: string, b: string, i: nat, f: char -> bool)
    requires RunEnd(a, i, f) < |a|
    ensures RunEnd(a + b, i, f) == RunEnd(a, i, f)
    decreases |a| - i
  {
    if i < |a| && f(a[i]) {
      RunEndExtend(a, b, i + 1, f);
    }
  }

  /**
   * A cursor position `p` in `a` after which no token can reach across into
   * text appended to `a`: either it is inside `a`, or it is the end of `a`
   * and the last character of `a` is a single-character token.
   */
  predicate CleanCut(a: string, p: nat) {
    p < |a| || (p == |a| && |a| > 0 && IsPunct(a[|a| - 1]))
  }

  /** A scan that stops at a clean cut of `a` is the same scan when more text follows `a`. */
  lemma ScanExtend(a: string, b: string, i: nat)
    requires CleanCut(a, Scan(a, i).1)
    ensures Scan(a + b, i) == Scan(a, i)
  {
    var st := RunEnd(a, i, IsWhitespace);
    assert st < |a|;
    RunEndExtend(a, b, i, IsWhitespace);
    var c := a[st];
    if IsLetter(c) {
      ScanAtExtendRun(a, b, st, IsLetter);
    } else if IsDigit(c) {
      ScanAtExtendRun(a, b, st, IsDigit);
    } else {
      assert CharAt(a + b, st) == c;
    }
  }

  /** An identifier or number that ends inside `a` is unchanged when more text follows `a`. */
  lemma ScanAtExtendRun(a: string, b: string, st: nat, f: char -> bool)
    requires st < |a| && f(a[st])
    requires f == IsLetter || (f == IsDigit && !IsLetter(a[st]))
    requires RunEnd(a, st, f) < |a|
    ensures ScanAt(a + b, st) == ScanAt(a, st)
  {
    assert CharAt(a + b, st) == a[st];
    RunEndExtend(a, b, st, f);
    var e := RunEnd(a, st, f);
    assert (a + b)[st..e] == a[st..e];
  }

  /** Tokens that end at a clean cut of `a` are the same tokens when more text follows `a`. */
  lemma {:induction false} StreamExtend(a: string, b: string, i: nat, n: nat)
    requires CleanCut(a, After(a, i, n))
    ensures TokenStream(a + b, i, n) == TokenStream(a, i, n)
    ensures After(a + b, i, n) == After(a, i, n)
    decreases n
  {
    if n > 0 {
      StreamUnfold(a, i, n - 1);
      StreamUnfold(a + b, i, n - 1);
      AfterAdvances(a, Scan(a, i).1, n - 1);
      ScanExtend(a, b, i);
      StreamExtend(a, b, Scan(a, i).1, n - 1);
    }
  }

  /**
   * No token straddles whitespace or follows a single-character token across a
   * seam: when the first `n` tokens of `a` end at a clean cut and leave only
   * whitespace behind, the tokens of `a + b` are those of `a` followed by those of `b`.
   */
  lemma StreamConcat(a: string, b: string, n: nat, m: nat)
    requires n > 0 ==> CleanCut(a, After(a, 0, n))
    requires forall k :: After(a, 0, n) <= k < |a| ==> IsWhitespace(a[k])
    ensures TokenStream(a + b, 0, n + m) == TokenStream(a, 0, n) + TokenStream(b, 0, m)
    ensures m > 0 ==> After(a + b, 0, n + m) == |a| + After(b, 0, m)
    ensures m == 0 ==> After(a + b, 0, n + m) == After(a, 0, n)
  {
    var q := After(a, 0, n);
    var ab := a + b;
    StreamPrefixOf(a, b, n);
    StreamSplit(ab, 0, n, m);
    StreamGap(a, b, q, m);
  }

  /** The first `n` tokens of `a + b`, when they end at a clean cut of `a`, are the first `n` tokens of `a`. */
  lemma StreamPrefixOf(a: string, b: string, n: nat)
    requires n > 0 ==> CleanCut(a, After(a, 0, n))
    ensures TokenStream(a + b, 0, n) == TokenStream(a, 0, n) && After(a + b, 0, n) == After(a, 0, n)
  {
    if n > 0 {
      StreamExtend(a, b, 0, n);
    }
  }

  /** From inside a whitespace tail of `a`, `a + b` yields the tokens of `b`. */
  lemma StreamGap(a: string, b: string, q: nat, m: nat)
    requires q <= |a|
    requires forall k :: q <= k < |a| ==> IsWhitespace(a[k])
    ensures TokenStream(a + b, q, m) == TokenStream(b, 0, m)
    ensures m > 0 ==> After(a + b, q, m) == |a| + After(b, 0, m)
  {
    assert forall k :: q <= k < |a| ==> (a + b)[k] == a[k];
    StreamSkipWhitespace(a + b, q, |a|, m);
    StreamShift(a, b, 0, m);
  }


  /**
   * `a` on its own lexes to exactly `ts` in `n` tokens, and those tokens end
   * at a clean cut followed only by whitespace, so that whatever text is
   * appended to `a` starts the next token afresh.
   */
  predicate Segment(a: string, n: nat, ts: seq<Token>) {
    && TokenStream(a, 0, n) == ts
    && After(a, 0, n) <= |a|
    && (n > 0 ==> CleanCut(a, After(a, 0, n)))
    && (forall k :: After(a, 0, n) <= k < |a| ==> IsWhitespace(a[k]))
  }

  /** Segments compose: the tokens of two segments side by side are the tokens of each, in order. */
  lemma SegmentConcat(a: string, n: nat, ta: seq<Token>, b: string, m: nat, tb: seq<Token>)
    requires Segment(a, n, ta) && Segment(b, m, tb)
    ensures Segment(a + b, n + m, ta + tb)
  {
    StreamConcat(a, b, n, m);
    var ab := a + b;
    if m > 0 {
      var q := After(b, 0, m);
      assert forall k :: |a| + q <= k < |ab| ==> ab[k] == b[k - |a|];
      if q == |b| {
        assert ab[|ab| - 1] == b[|b| - 1];
      }
    } else {
      assert forall k :: |a| <= k < |ab| ==> ab[k] == b[k - |a|];
      assert forall k :: 0 <= k < |a| ==> ab[k] == a[k];
    }
  }

  /** A word followed by one whitespace character: one token, the whitespace left over. */
  lemma WordSpace(w: string, sp: char)
    requires IsWord(w) && IsWhitespace(sp)
    ensures Segment(w + [sp], 1, [Token(Serialize(w), w)])
  {
    var a := w + [sp];
    ScanLeadingWord(w, [sp]);
    StreamOne(a, 0);
    assert a[|w|] == sp;
  }

  /** A word directly followed by a single-character token: two tokens ending at a clean cut. */
  lemma WordPunct(w: string, c: char)
    requires IsWord(w) && IsPunct(c)
    ensures Segment(w + [c], 2, [Token(Serialize(w), w), NewToken(PunctKind(c), c)])
  {
    var a := w + [c];
    ScanLeadingWord(w, [c]);
    assert a[|w|] == c;
    ScanPunct(a, |w|);
    StreamTwo(a, 0);
  }

  /** A numeral followed by one whitespace character: one integer token. */
  lemma NumberSpace(d: string, sp: char)
    requires IsNumeral(d) && IsWhitespace(sp)
    ensures Segment(d + [sp], 1, [Token(Int, d)])
  {
    var a := d + [sp];
    ScanLeadingNumber(d, [sp]);
    StreamOne(a, 0);
    assert a[|d|] == sp;
  }

  /** A numeral directly followed by a single-character token: two tokens ending at a clean cut. */
  lemma NumberPunct(d: string, c: char)
    requires IsNumeral(d) && IsPunct(c)
    ensures Segment(d + [c], 2, [Token(Int, d), NewToken(PunctKind(c), c)])
  {
    var a := d + [c];
    ScanLeadingNumber(d, [c]);
    assert a[|d|] == c;
    ScanPunct(a, |d|);
    StreamTwo(a, 0);
  }

  /** A single-character token on its own. */
  lemma PunctAlone(c: char)
    requires IsPunct(c)
    ensures Segment([c], 1, [NewToken(PunctKind(c), c)])
  {
    ScanPunct([c], 0);
    StreamOne([c], 0);
  }

  /** The loop of the lexer's test: a fresh lexer over `input`, asked for `n` tokens, hands out the token stream. */
  method Tokenize(input: string, n: nat) returns (ts: seq<Token>)
    requires IsAscii(input)
    ensures ts == TokenStream(input, 0, n)
  {
    var lexer := new Lexer(input);
    ts := [];
    var i := 0;
    while i < n
      invariant 0 <= i <= n
      invariant lexer.Valid() && lexer.input == input
      invariant ts == TokenStream(input, 0, i)
      invariant lexer.position == After(input, 0, i)
    {
      var tok := lexer.NextToken();
      StreamStep(input, 0, i);
      ts := ts + [tok];
      i := i + 1;
    }
  }
}
