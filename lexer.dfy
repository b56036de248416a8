/**
 * The lexer of `juice/src/lexer.rs`: a cursor over the input characters
 * that tracks its position and its line and column, and hands out one
 * token at a time.
 *
 * `Scan` is the reference definition of one token, read off the input
 * and a start position; `Lexer.NextToken` is proved to produce exactly
 * that token and to stop where it ends, and `Lexer.Lex` to produce
 * `Tokenize` of the input.
 */
module Lexing {
  import opened Wrappers
  import opened Tokens
  import opened Utf8

  // ------------------------------------------------------ character classes

  /**
   * The two Unicode properties the lexer asks Rust's `char` about that come
   * from Unicode's tables: `is_alphabetic` and `is_numeric`
   * (`is_alphanumeric` is their union).
   */
  datatype Classes = Classes(alphabetic: char -> bool, numeric: char -> bool)
  {
    /** What the tables say about ASCII: letters are alphabetic, decimal digits numeric, nothing else either. */
    predicate AsciiAgrees()
    {
      forall c: char :: (c as int) < 0x80 ==>
        (alphabetic(c) <==> ('a' <= c <= 'z' || 'A' <= c <= 'Z')) && (numeric(c) <==> IsDigit(c))
    }
  }

  /** `char::is_whitespace`: Unicode's White_Space property. */
  predicate IsWhitespace(c: char)
  {
    '\t' <= c <= '\r' || c == ' ' || c == '\U{85}' || c == '\U{A0}' || c == '\U{1680}'
    || '\U{2000}' <= c <= '\U{200A}' || c == '\U{2028}' || c == '\U{2029}' || c == '\U{202F}'
    || c == '\U{205F}' || c == '\U{3000}'
  }

  /** `char::is_digit(10)`. */
  predicate IsDigit(c: char)
  {
    '0' <= c <= '9'
  }

  predicate IdentifierStart(classes: Classes, c: char)
  {
    classes.alphabetic(c) || c == '_'
  }

  predicate IdentifierPart(classes: Classes, c: char)
  {
    classes.alphabetic(c) || classes.numeric(c) || c == '_'
  }

  // ---------------------------------------------------------------- keywords

  const Keywords: set<string> :=
    {"var", "trait", "object", "while", "for", "in", "true", "false", "null",
     "if", "else", "break", "continue", "return"}

  /** The text of each keyword kind. */
  function KeywordText(k: TokenType): string
  {
    match k
    case Var => "var"
    case Trait => "trait"
    case Object => "object"
    case While => "while"
    case For => "for"
    case In => "in"
    case True => "true"
    case False => "false"
    case Null => "null"
    case If => "if"
    case Else => "else"
    case Break => "break"
    case Continue => "continue"
    case Return => "return"
    case _ => ""
  }

  /** The kind of a word read as an identifier: one of the fourteen keywords, or Identifier. */
  function KeywordKind(word: string): (k: TokenType)
    ensures k != Eof && k != StringLiteral
  {
    match word
    case "var" => Var
    case "trait" => Trait
    case "object" => Object
    case "while" => While
    case "for" => For
    case "in" => In
    case "true" => True
    case "false" => False
    case "null" => Null
    case "if" => If
    case "else" => Else
    case "break" => Break
    case "continue" => Continue
    case "return" => Return
    case _ => Identifier
  }

  /** Exactly the fourteen keywords are read as keywords, and each is read as the kind whose text it is. */
  lemma KeywordKinds(word: string)
    ensures KeywordKind(word) == Identifier <==> word !in Keywords
    ensures word in Keywords ==> KeywordText(KeywordKind(word)) == word
  {
  }

  // -------------------------------------------------------------- positions

  /** A line and a column, both counted from 1. */
  datatype Place = Place(line: int, column: int)

  /**
   * Where the cursor stands after reading `s`: each newline starts a new
   * line at column 1, every other character moves one column on.
   */
  function Locate(s: seq<char>): (p: Place)
    ensures p.line >= 1 && 1 <= p.column <= |s| + 1
  {
    if s == [] then Place(1, 1)
    else
      var before := Locate(s[..|s| - 1]);
      if s[|s| - 1] == '\n' then Place(before.line + 1, 1) else Place(before.line, before.column + 1)
  }

  /** Characters after the last newline each move the column on by one and keep the line. */
  lemma {:induction false} LocateWithoutNewline(s: seq<char>, k: nat)
    requires k <= |s| && forall i :: k <= i < |s| ==> s[i] != '\n'
    ensures Locate(s) == Place(Locate(s[..k]).line, Locate(s[..k]).column + (|s| - k))
    decreases |s| - k
  {
    if k < |s| {
      LocateWithoutNewline(s[..|s| - 1], k);
      assert s[..|s| - 1][..k] == s[..k];
    } else {
      assert s[..k] == s;
    }
  }

  // ------------------------------------------------------------------- runs

  // Each function below finds where a run of characters ends; what the run
  // holds is stated by the lemma that follows it.

  /** The first position at or after `k` that is not white space. */
  function SkipSpace(s: seq<char>, k: nat): (e: nat)
    requires k <= |s|
    ensures k <= e <= |s| && (e == |s| || !IsWhitespace(s[e]))
    decreases |s| - k
  {
    if k == |s| || !IsWhitespace(s[k]) then k else SkipSpace(s, k + 1)
  }

  lemma {:induction false} SkipSpaceRun(s: seq<char>, k: nat)
    requires k <= |s|
    ensures forall i :: k <= i < SkipSpace(s, k) ==> IsWhitespace(s[i])
    decreases |s| - k
  {
    if k < |s| && IsWhitespace(s[k]) {
      SkipSpaceRun(s, k + 1);
    }
  }

  /** The end of the identifier characters from `k` on. */
  function IdentifierEnd(classes: Classes, s: seq<char>, k: nat): (e: nat)
    requires k <= |s|
    ensures k <= e <= |s| && (e == |s| || !IdentifierPart(classes, s[e]))
    decreases |s| - k
  {
    if k == |s| || !IdentifierPart(classes, s[k]) then k else IdentifierEnd(classes, s, k + 1)
  }

  lemma {:induction false} IdentifierRun(classes: Classes, s: seq<char>, k: nat)
    requires k <= |s|
    ensures forall i :: k <= i < IdentifierEnd(classes, s, k) ==> IdentifierPart(classes, s[i])
    decreases |s| - k
  {
    if k < |s| && IdentifierPart(classes, s[k]) {
      IdentifierRun(classes, s, k + 1);
    }
  }

  /** Digits with at most one '.', and none at all once one has been seen (`seenDot`). */
  predicate NumberTail(t: seq<char>, seenDot: bool)
  {
    (forall i :: 0 <= i < |t| ==> IsDigit(t[i]) || t[i] == '.')
    && (seenDot ==> '.' !in t)
    && (forall i, j :: 0 <= i < j < |t| && t[i] == '.' ==> t[j] != '.')
  }

  /** The end of a number's digits from `k` on: a '.' is taken only while none has been (`seenDot`). */
  function NumberEnd(s: seq<char>, k: nat, seenDot: bool): (e: nat)
    requires k <= |s|
    ensures k <= e <= |s|
    decreases |s| - k
  {
    if k < |s| && IsDigit(s[k]) then NumberEnd(s, k + 1, seenDot)
    else if k < |s| && s[k] == '.' && !seenDot then NumberEnd(s, k + 1, true)
    else k
  }

  /** A number's tail is digits with at most one '.', and it stops only where one more character would break that. */
  lemma {:induction false} NumberRun(s: seq<char>, k: nat, seenDot: bool)
    requires k <= |s|
    ensures var e := NumberEnd(s, k, seenDot);
      NumberTail(s[k..e], seenDot)
      && (e == |s| || !(IsDigit(s[e]) || (s[e] == '.' && !seenDot && '.' !in s[k..e])))
    decreases |s| - k
  {
    var e := NumberEnd(s, k, seenDot);
    if k < |s| && IsDigit(s[k]) {
      NumberRun(s, k + 1, seenDot);
      assert s[k..e] == [s[k]] + s[k + 1..e];
    } else if k < |s| && s[k] == '.' && !seenDot {
      NumberRun(s, k + 1, true);
      assert s[k..e] == [s[k]] + s[k + 1..e];
    }
  }

  /** The end of a string's body from `k` on: just past the closing quote, or the end of the input. */
  function StringEnd(s: seq<char>, k: nat): (e: nat)
    requires k <= |s|
    ensures k <= e <= |s|
    decreases |s| - k
  {
    if k == |s| then k
    else if s[k] == '"' then k + 1
    else StringEnd(s, k + 1)
  }

  /** A string's body stops at its first quote, which it includes, or runs to the end of the input if there is none. */
  lemma {:induction false} StringRun(s: seq<char>, k: nat)
    requires k <= |s|
    ensures var e := StringEnd(s, k);
      (e == |s| && '"' !in s[k..]) || (k < e && s[e - 1] == '"' && '"' !in s[k..e - 1])
    decreases |s| - k
  {
    var e := StringEnd(s, k);
    if k < |s| && s[k] != '"' {
      StringRun(s, k + 1);
      assert s[k..] == [s[k]] + s[k + 1..];
      assert e > k + 1 ==> s[k..e - 1] == [s[k]] + s[k + 1..e - 1];
    }
  }

  /** The end of a comment's text from `k` on: the next newline, which the comment leaves in place. */
  function CommentEnd(s: seq<char>, k: nat): (e: nat)
    requires k <= |s|
    ensures k <= e <= |s| && (e == |s| || s[e] == '\n')
    decreases |s| - k
  {
    if k == |s| || s[k] == '\n' then k else CommentEnd(s, k + 1)
  }

  lemma {:induction false} CommentRun(s: seq<char>, k: nat)
    requires k <= |s|
    ensures forall i :: k <= i < CommentEnd(s, k) ==> s[i] != '\n'
    decreases |s| - k
  {
    if k < |s| && s[k] != '\n' {
      CommentRun(s, k + 1);
    }
  }

  // ----------------------------------------------------------------- tokens

  /** The tokens of a single character that needs no look-ahead. */
  function SingleKind(c: char): Option<TokenType>
  {
    match c
    case '(' => Some(LeftParen)
    case ')' => Some(RightParen)
    case '{' => Some(LeftBrace)
    case '}' => Some(RightBrace)
    case '[' => Some(LeftBracket)
    case ']' => Some(RightBracket)
    case '.' => Some(Dot)
    case ',' => Some(Comma)
    case ':' => Some(Colon)
    case ';' => Some(Semicolon)
    case '+' => Some(Plus)
    case '-' => Some(Minus)
    case '*' => Some(Star)
    case '%' => Some(Percent)
    case _ => None
  }

  /** A character that may start a two-character operator: the second character, the pair's kind and the lone character's kind. */
  datatype Pair = Pair(second: char, double: TokenType, single: TokenType)

  function PairOf(c: char): Option<Pair>
  {
    match c
    case '=' => Some(Pair('=', EqualEqual, Equal))
    case '!' => Some(Pair('=', BangEqual, Bang))
    case '>' => Some(Pair('=', GreaterEqual, Greater))
    case '<' => Some(Pair('=', LessEqual, Less))
    case '&' => Some(Pair('&', And, Invalid))
    case '|' => Some(Pair('|', Or, Invalid))
    case _ => None
  }

  /** A token and the positions of its first character and of the character after it. */
  datatype Scanned = Scanned(token: Token, start: nat, end: nat)

  /**
   * A token of `n` characters from `q`: its line and column are the cursor's
   * after the token, less `n` columns.
   */
  function Fixed(s: seq<char>, q: nat, n: nat, kind: TokenType): Scanned
    requires q + n <= |s|
  {
    var after := Locate(s[..q + n]);
    Scanned(Token(kind, s[q..q + n], after.line, after.column - n), q, q + n)
  }

  /**
   * An identifier, keyword or number from `q` to `e`: its column is the
   * cursor's after it less the lexeme's length in bytes.
   */
  function Word(s: seq<char>, q: nat, e: nat, kind: TokenType): Scanned
    requires q <= e <= |s|
  {
    var after := Locate(s[..e]);
    Scanned(Token(kind, s[q..e], after.line, after.column - Utf8Length(s[q..e])), q, e)
  }

  /**
   * The first position at or after `p` where a token starts: white space is
   * skipped, and so is each `//` comment up to the newline that ends it.
   */
  function SkipTrivia(s: seq<char>, p: nat): (q: nat)
    requires p <= |s|
    ensures p <= q <= |s|
    ensures q == |s| || (!IsWhitespace(s[q]) && !CommentAt(s, q))
    decreases |s| - p
  {
    var q := SkipSpace(s, p);
    if CommentAt(s, q) then SkipTrivia(s, CommentEnd(s, q + 2)) else q
  }

  predicate CommentAt(s: seq<char>, q: nat)
  {
    q + 1 < |s| && s[q] == '/' && s[q + 1] == '/'
  }

  /** The token the lexer reads from position `p`. */
  function Scan(classes: Classes, s: seq<char>, p: nat): (r: Scanned)
    requires p <= |s|
    ensures p <= r.start <= r.end <= |s|
    ensures r.token.kind == Eof <==> r.start == |s|
    ensures r.token.kind == Eof ==> r.end == |s| && r.token.lexeme == "" && Place(r.token.line, r.token.column) == Locate(s)
    ensures r.token.kind != Eof ==> r.start < r.end && r.token.lexeme == s[r.start..r.end]
  {
    ScanAt(classes, s, SkipTrivia(s, p))
  }

  /** The token that starts at `q`, where no white space or comment does. */
  function ScanAt(classes: Classes, s: seq<char>, q: nat): (r: Scanned)
    requires q <= |s| && (q == |s| || !CommentAt(s, q))
    ensures r.start == q && q <= r.end <= |s|
    ensures r.token.kind == Eof <==> q == |s|
    ensures r.token.kind == Eof ==> r.end == |s| && r.token.lexeme == "" && Place(r.token.line, r.token.column) == Locate(s)
    ensures r.token.kind != Eof ==> q < r.end && r.token.lexeme == s[q..r.end]
  {
    if q == |s| then
      assert s[..q] == s;
      Scanned(Token(Eof, "", Locate(s).line, Locate(s).column), q, q)
    else if SingleKind(s[q]).Some? || PairOf(s[q]).Some? then OperatorAt(s, q)
    else OtherAt(classes, s, q)
  }

  /** A one- or two-character operator or punctuation token at `q`; a two-character operator is preferred. */
  function OperatorAt(s: seq<char>, q: nat): (r: Scanned)
    requires q < |s| && (SingleKind(s[q]).Some? || PairOf(s[q]).Some?)
    ensures r.start == q && q < r.end <= |s| && r.token.kind != Eof && r.token.lexeme == s[q..r.end]
  {
    if SingleKind(s[q]).Some? then Fixed(s, q, 1, SingleKind(s[q]).value)
    else
      var pair := PairOf(s[q]).value;
      if q + 1 < |s| && s[q + 1] == pair.second then Fixed(s, q, 2, pair.double) else Fixed(s, q, 1, pair.single)
  }

  /** Any other token at `q`: a string, a lone `/`, an identifier or keyword, a number, or an Invalid character. */
  function OtherAt(classes: Classes, s: seq<char>, q: nat): (r: Scanned)
    requires q < |s| && SingleKind(s[q]).None? && PairOf(s[q]).None?
    ensures r.start == q && q < r.end <= |s| && r.token.kind != Eof && r.token.lexeme == s[q..r.end]
  {
    var c := s[q];
    if c == '"' then
      var e := StringEnd(s, q + 1);
      Scanned(Token(StringLiteral, s[q..e], Locate(s[..e]).line, Locate(s[..q + 1]).column), q, e)
    else if c == '/' then Fixed(s, q, 1, Slash)
    else if IdentifierStart(classes, c) then
      var e := IdentifierEnd(classes, s, q + 1);
      Word(s, q, e, KeywordKind(s[q..e]))
    else if IsDigit(c) then Word(s, q, NumberEnd(s, q + 1, false), NumberLiteral)
    else Fixed(s, q, 1, Invalid)
  }

  /** All tokens from position `p`, up to and including the Eof token. */
  function Tokenize(classes: Classes, s: seq<char>, p: nat): seq<Token>
    requires p <= |s|
    decreases |s| - p
  {
    var r := Scan(classes, s, p);
    if r.token.kind == Eof then [r.token] else [r.token] + Tokenize(classes, s, r.end)
  }

  /** The tokens end with Eof, and no other token is Eof. */
  lemma {:induction false} TokenizeEndsWithEof(classes: Classes, s: seq<char>, p: nat)
    requires p <= |s|
    ensures var ts := Tokenize(classes, s, p);
      |ts| >= 1 && ts[|ts| - 1].kind == Eof && forall i :: 0 <= i < |ts| - 1 ==> ts[i].kind != Eof
    decreases |s| - p
  {
    var r := Scan(classes, s, p);
    if r.token.kind != Eof {
      TokenizeEndsWithEof(classes, s, r.end);
      var rest := Tokenize(classes, s, r.end);
      assert forall i :: 0 < i <= |rest| ==> ([r.token] + rest)[i] == rest[i - 1];
    }
  }

  /** `Tokenize` reads one token, and then the rest unless it was Eof. */
  lemma TokenizeStep(classes: Classes, s: seq<char>, p: nat)
    requires p <= |s|
    ensures var r := Scan(classes, s, p);
      Tokenize(classes, s, p) == if r.token.kind == Eof then [r.token] else [r.token] + Tokenize(classes, s, r.end)
  {
  }

  lemma Cons<T>(s: seq<T>, q: nat, e: nat)
    requires q < e <= |s|
    ensures [s[q]] + s[q + 1..e] == s[q..e]
  {
  }

  lemma Append<T>(xs: seq<T>, x: T, ys: seq<T>)
    ensures (xs + [x]) + ys == xs + ([x] + ys)
  {
  }

  // ------------------------------------------------- what one token can be

  // Each lemma below is about the token that starts at a position `q` where
  // no white space or comment does, which is where `Scan` reads it.

  /** A two-character operator is read whole; its first character alone is read only when the second does not follow. */
  lemma ScanPair(classes: Classes, s: seq<char>, q: nat)
    requires q < |s| && !CommentAt(s, q) && PairOf(s[q]).Some?
    ensures var pair := PairOf(s[q]).value; var r := ScanAt(classes, s, q);
      if q + 1 < |s| && s[q + 1] == pair.second then r.token.kind == pair.double && r.end == q + 2
      else r.token.kind == pair.single && r.end == q + 1
  {
  }

  /** A lone `&` or `|` is an Invalid token of that one character. */
  lemma ScanLoneAmpersand(classes: Classes, s: seq<char>, q: nat)
    requires q < |s| && s[q] in "&|" && (q + 1 == |s| || s[q + 1] != s[q])
    ensures ScanAt(classes, s, q).token.kind == Invalid && ScanAt(classes, s, q).token.lexeme == [s[q]]
  {
  }

  /** After white space, `//` starts a comment up to the next newline, and tokens resume after it. */
  lemma TriviaComment(s: seq<char>, p: nat)
    requires p <= |s| && CommentAt(s, SkipSpace(s, p))
    ensures SkipTrivia(s, p) == SkipTrivia(s, CommentEnd(s, SkipSpace(s, p) + 2))
  {
  }

  /** Skipping from `p` is skipping from the end of the white space that follows `p`. */
  lemma TriviaAfterSpace(s: seq<char>, p: nat)
    requires p <= |s|
    ensures SkipTrivia(s, p) == SkipTrivia(s, SkipSpace(s, p))
  {
    var q := SkipSpace(s, p);
    assert SkipSpace(s, q) == q;
  }

  /** Where white space is not followed by a comment, the token starts right after the white space. */
  lemma TriviaStart(s: seq<char>, p: nat)
    requires p <= |s| && !CommentAt(s, SkipSpace(s, p))
    ensures SkipTrivia(s, p) == SkipSpace(s, p)
  {
  }

  /** A `/` not followed by another is Slash. */
  lemma ScanSlash(classes: Classes, s: seq<char>, q: nat)
    requires q < |s| && !CommentAt(s, q) && s[q] == '/'
    ensures ScanAt(classes, s, q).token.kind == Slash && ScanAt(classes, s, q).end == q + 1
  {
  }

  /** An identifier is the longest run of identifier characters, and is a keyword exactly when its text is one. */
  lemma ScanIdentifier(classes: Classes, s: seq<char>, q: nat)
    requires q < |s| && IdentifierStart(classes, s[q]) && SingleKind(s[q]).None? && PairOf(s[q]).None? && s[q] !in "\"/"
    ensures var r := ScanAt(classes, s, q);
      (r.token.kind == Identifier <==> r.token.lexeme !in Keywords)
      && (r.token.lexeme in Keywords ==> KeywordText(r.token.kind) == r.token.lexeme)
      && (forall i :: q < i < r.end ==> IdentifierPart(classes, s[i]))
      && (r.end == |s| || !IdentifierPart(classes, s[r.end]))
  {
    IdentifierRun(classes, s, q + 1);
    KeywordKinds(ScanAt(classes, s, q).token.lexeme);
  }

  /** A number is a digit, then digits with at most one '.', as long as it can be. */
  lemma ScanNumber(classes: Classes, s: seq<char>, q: nat)
    requires q < |s| && IsDigit(s[q]) && !IdentifierStart(classes, s[q])
    ensures var r := ScanAt(classes, s, q);
      r.token.kind == NumberLiteral && r.token.lexeme == s[q..r.end] && NumberTail(s[q + 1..r.end], false)
      && (r.end == |s| || !(IsDigit(s[r.end]) || (s[r.end] == '.' && '.' !in s[q + 1..r.end])))
  {
    var e := NumberEnd(s, q + 1, false);
    NumberRun(s, q + 1, false);
    assert SingleKind(s[q]).None? && PairOf(s[q]).None?;
    assert ScanAt(classes, s, q) == OtherAt(classes, s, q);
    assert OtherAt(classes, s, q) == Word(s, q, e, NumberLiteral);
  }

  /** A string keeps both quotes, and an unterminated one runs to the end of the input. */
  lemma ScanString(classes: Classes, s: seq<char>, q: nat)
    requires q < |s| && s[q] == '"'
    ensures var r := ScanAt(classes, s, q); var lexeme := r.token.lexeme;
      r.token.kind == StringLiteral && |lexeme| >= 1 && lexeme[0] == '"'
      && ((r.end == |s| && '"' !in lexeme[1..])
          || (|lexeme| >= 2 && lexeme[|lexeme| - 1] == '"' && '"' !in lexeme[1..|lexeme| - 1]))
  {
    var r := ScanAt(classes, s, q);
    StringRun(s, q + 1);
    var e := StringEnd(s, q + 1);
    assert r.end == e && r.token.lexeme == s[q..e];
    assert r.token.lexeme[1..] == s[q + 1..r.end];
    assert r.end > q + 1 ==> r.token.lexeme[1..|r.token.lexeme| - 1] == s[q + 1..r.end - 1];
  }

  /** A character that starts no token is an Invalid token of its own. */
  lemma ScanUnknown(classes: Classes, s: seq<char>, q: nat)
    requires q < |s| && SingleKind(s[q]).None? && PairOf(s[q]).None? && s[q] !in "\"/"
    requires !IdentifierStart(classes, s[q]) && !IsDigit(s[q])
    ensures ScanAt(classes, s, q).token.kind == Invalid && ScanAt(classes, s, q).token.lexeme == [s[q]]
  {
  }

  /** A plain ASCII lexeme that is not a string holds no newline. */
  lemma LexemeOnOneLine(classes: Classes, s: seq<char>, q: nat)
    requires q < |s| && !CommentAt(s, q) && !IsWhitespace(s[q]) && classes.AsciiAgrees()
    requires var r := ScanAt(classes, s, q);
      r.token.kind != StringLiteral && forall i :: 0 <= i < |r.token.lexeme| ==> (r.token.lexeme[i] as int) < 0x80
    ensures forall i :: q <= i < ScanAt(classes, s, q).end ==> s[i] != '\n'
  {
    if SingleKind(s[q]).Some? || PairOf(s[q]).Some? {
      OperatorOnOneLine(s, q);
    } else {
      OtherOnOneLine(classes, s, q);
    }
  }

  lemma OperatorOnOneLine(s: seq<char>, q: nat)
    requires q < |s| && (SingleKind(s[q]).Some? || PairOf(s[q]).Some?)
    ensures forall i :: q <= i < OperatorAt(s, q).end ==> s[i] != '\n'
  {
  }

  lemma OtherOnOneLine(classes: Classes, s: seq<char>, q: nat)
    requires q < |s| && SingleKind(s[q]).None? && PairOf(s[q]).None? && s[q] != '\n' && classes.AsciiAgrees()
    requires var r := OtherAt(classes, s, q);
      r.token.kind != StringLiteral && forall i :: 0 <= i < |r.token.lexeme| ==> (r.token.lexeme[i] as int) < 0x80
    ensures forall i :: q <= i < OtherAt(classes, s, q).end ==> s[i] != '\n'
  {
    if s[q] != '/' && s[q] != '"' {
      if IdentifierStart(classes, s[q]) {
        WordOnOneLine(classes, s, q);
      } else if IsDigit(s[q]) {
        NumberOnOneLine(classes, s, q);
      } else {
        assert OtherAt(classes, s, q) == Fixed(s, q, 1, Invalid);
      }
    }
  }

  lemma WordOnOneLine(classes: Classes, s: seq<char>, q: nat)
    requires q < |s| && SingleKind(s[q]).None? && PairOf(s[q]).None? && s[q] != '\n' && classes.AsciiAgrees()
    requires s[q] != '/' && s[q] != '"' && IdentifierStart(classes, s[q])
    requires forall i :: 0 <= i < |OtherAt(classes, s, q).token.lexeme| ==> (OtherAt(classes, s, q).token.lexeme[i] as int) < 0x80
    ensures forall i :: q <= i < OtherAt(classes, s, q).end ==> s[i] != '\n'
  {
    var r := OtherAt(classes, s, q);
    var e := IdentifierEnd(classes, s, q + 1);
    assert r == Word(s, q, e, KeywordKind(s[q..e]));
    IdentifierOnOneLine(classes, s, q + 1, r.token.lexeme[1..]);
  }

  lemma NumberOnOneLine(classes: Classes, s: seq<char>, q: nat)
    requires q < |s| && SingleKind(s[q]).None? && PairOf(s[q]).None? && s[q] != '/' && s[q] != '"'
    requires !IdentifierStart(classes, s[q]) && IsDigit(s[q])
    ensures forall i :: q <= i < OtherAt(classes, s, q).end ==> s[i] != '\n'
  {
    var r := OtherAt(classes, s, q);
    var e := NumberEnd(s, q + 1, false);
    assert r == Word(s, q, e, NumberLiteral);
    NumberRun(s, q + 1, false);
    assert forall i :: q < i < r.end ==> s[i] == s[q + 1..r.end][i - q - 1];
  }

  /** ASCII identifier characters are letters, digits and `_`, none of them a newline. */
  lemma IdentifierOnOneLine(classes: Classes, s: seq<char>, k: nat, rest: seq<char>)
    requires k <= |s| && classes.AsciiAgrees()
    requires rest == s[k..IdentifierEnd(classes, s, k)] && forall i :: 0 <= i < |rest| ==> (rest[i] as int) < 0x80
    ensures forall i :: k <= i < IdentifierEnd(classes, s, k) ==> s[i] != '\n'
  {
    IdentifierRun(classes, s, k);
    forall i | k <= i < IdentifierEnd(classes, s, k)
      ensures s[i] != '\n'
    {
      assert s[i] == rest[i - k];
    }
  }

  /**
   * When the lexeme is plain ASCII and not a string, the token's line and
   * column are those of its first character.
   */
  lemma ScanPlace(classes: Classes, s: seq<char>, q: nat)
    requires q < |s| && !CommentAt(s, q) && !IsWhitespace(s[q]) && classes.AsciiAgrees()
    requires var r := ScanAt(classes, s, q);
      r.token.kind != StringLiteral && forall i :: 0 <= i < |r.token.lexeme| ==> (r.token.lexeme[i] as int) < 0x80
    ensures var r := ScanAt(classes, s, q);
      Place(r.token.line, r.token.column) == Locate(s[..q])
  {
    var r := ScanAt(classes, s, q);
    LexemeOnOneLine(classes, s, q);
    AsciiColumn(classes, s, q);
    LocateWithoutNewline(s[..r.end], q);
    assert s[..r.end][..q] == s[..q];
  }

  /** A plain ASCII lexeme that is not a string is placed as many columns back as it has characters. */
  lemma AsciiColumn(classes: Classes, s: seq<char>, q: nat)
    requires q < |s| && !CommentAt(s, q)
    requires var r := ScanAt(classes, s, q);
      r.token.kind != StringLiteral && forall i :: 0 <= i < |r.token.lexeme| ==> (r.token.lexeme[i] as int) < 0x80
    ensures var r := ScanAt(classes, s, q);
      r.token.line == Locate(s[..r.end]).line && r.token.column == Locate(s[..r.end]).column - (r.end - q)
  {
    if SingleKind(s[q]).None? && PairOf(s[q]).None? {
      assert ScanAt(classes, s, q) == OtherAt(classes, s, q);
      OtherColumn(classes, s, q);
    }
  }

  lemma OtherColumn(classes: Classes, s: seq<char>, q: nat)
    requires q < |s| && SingleKind(s[q]).None? && PairOf(s[q]).None?
    requires var r := OtherAt(classes, s, q);
      r.token.kind != StringLiteral && forall i :: 0 <= i < |r.token.lexeme| ==> (r.token.lexeme[i] as int) < 0x80
    ensures var r := OtherAt(classes, s, q);
      r.token.line == Locate(s[..r.end]).line && r.token.column == Locate(s[..r.end]).column - (r.end - q)
  {
    Utf8LengthAscii(OtherAt(classes, s, q).token.lexeme);
  }

  // ------------------------------------------------------------------ lexer

  class Lexer {
    const input: seq<char>
    const classes: Classes
    var line: int
    var column: int
    var position: nat

    /** The line and column are always where reading the input up to `position` leaves them. */
    ghost predicate Valid()
      reads this
    {
      position <= |input| && Place(line, column) == Locate(input[..position])
    }

    constructor(input: seq<char>, classes: Classes)
      ensures Valid() && this.input == input && this.classes == classes
      ensures position == 0 && line == 1 && column == 1
    {
      this.input := input;
      this.classes := classes;
      line := 1;
      column := 1;
      position := 0;
    }

    /** Consumes one character; at the end of the input nothing changes. */
    method Advance() returns (r: Option<char>)
      requires Valid()
      modifies this
      ensures Valid()
      ensures old(position) >= |input| ==> r.None? && position == old(position) && line == old(line) && column == old(column)
      ensures old(position) < |input| ==>
        r == Some(input[old(position)]) && position == old(position) + 1
        && (if r.value == '\n' then line == old(line) + 1 && column == 1 else line == old(line) && column == old(column) + 1)
    {
      if position >= |input| {
        return None;
      }
      var c := input[position];
      position := position + 1;
      column := column + 1;
      if c == '\n' {
        line := line + 1;
        column := 1;
      }
      assert input[..position][..position - 1] == input[..position - 1];
      r := Some(c);
    }

    /** The next character, without consuming it. */
    function Peek(): (r: Option<char>)
      reads this
      ensures r.None? <==> position >= |input|
      ensures r.Some? ==> r.value == input[position]
    {
      if position >= |input| then None else Some(input[position])
    }

    method SkipWhitespace()
      requires Valid()
      modifies this
      ensures Valid() && position == SkipSpace(input, old(position))
    {
      while true
        invariant Valid() && old(position) <= position <= |input|
        invariant SkipSpace(input, position) == SkipSpace(input, old(position))
        decreases |input| - position
      {
        var c := Peek();
        if c.None? || !IsWhitespace(c.value) {
          break;
        }
        var _ := Advance();
      }
    }

    /** Reads the rest of an identifier or keyword whose first character `first` was just consumed. */
    method ReadIdentifier(first: char) returns (t: Token)
      requires Valid()
      modifies this
      ensures Valid() && position == IdentifierEnd(classes, input, old(position))
      ensures var lexeme := [first] + input[old(position)..position];
        t == Token(KeywordKind(lexeme), lexeme, line, column - Utf8Length(lexeme))
    {
      var lexeme := [first];
      while true
        invariant Valid() && old(position) <= position <= |input|
        invariant lexeme == [first] + input[old(position)..position]
        invariant IdentifierEnd(classes, input, position) == IdentifierEnd(classes, input, old(position))
        decreases |input| - position
      {
        var c := Peek();
        if c.None? || !IdentifierPart(classes, c.value) {
          break;
        }
        var next := Advance();
        lexeme := lexeme + [next.value];
      }
      t := Token(KeywordKind(lexeme), lexeme, line, column - Utf8Length(lexeme));
    }

    /** Reads the rest of a number whose first digit `first` was just consumed. */
    method ReadNumber(first: char) returns (t: Token)
      requires Valid()
      modifies this
      ensures Valid() && position == NumberEnd(input, old(position), false)
      ensures var lexeme := [first] + input[old(position)..position];
        t == Token(NumberLiteral, lexeme, line, column - Utf8Length(lexeme))
    {
      var lexeme := [first];
      var hasDecimal := false;
      while true
        invariant Valid() && old(position) <= position <= |input|
        invariant lexeme == [first] + input[old(position)..position]
        invariant NumberEnd(input, position, hasDecimal) == NumberEnd(input, old(position), false)
        decreases |input| - position
      {
        var c := Peek();
        if c.Some? && IsDigit(c.value) {
          var next := Advance();
          lexeme := lexeme + [next.value];
        } else if c == Some('.') && !hasDecimal {
          hasDecimal := true;
          var next := Advance();
          lexeme := lexeme + [next.value];
        } else {
          break;
        }
      }
      t := Token(NumberLiteral, lexeme, line, column - Utf8Length(lexeme));
    }

    /** Reads a string whose opening quote was just consumed, up to and including the closing quote. */
    method ReadString() returns (t: Token)
      requires Valid()
      modifies this
      ensures Valid() && position == StringEnd(input, old(position))
      ensures t == Token(StringLiteral, ['"'] + input[old(position)..position], line, old(column))
    {
      var startColumn := column;
      var lexeme := ['"'];
      while true
        invariant Valid() && old(position) <= position <= |input|
        invariant lexeme == ['"'] + input[old(position)..position]
        invariant StringEnd(input, position) == StringEnd(input, old(position))
        decreases |input| - position
      {
        var c := Advance();
        if c.None? {
          break;
        }
        lexeme := lexeme + [c.value];
        if c.value == '"' {
          break;
        }
      }
      t := Token(StringLiteral, lexeme, line, startColumn);
    }

    /** Skips a comment's text, leaving the newline that ends it. */
    method ReadComment()
      requires Valid()
      modifies this
      ensures Valid() && position == CommentEnd(input, old(position))
    {
      while true
        invariant Valid() && old(position) <= position <= |input|
        invariant CommentEnd(input, position) == CommentEnd(input, old(position))
        decreases |input| - position
      {
        var c := Peek();
        if c.None? || c.value == '\n' {
          break;
        }
        var _ := Advance();
      }
    }

    /**
     * The next token: exactly the one `Scan` reads from the current position.
     * A comment is skipped and the token after it returned; the other arms
     * of the source's match are split between `ReadOperator` and `ReadOther`
     * (the check for a comment comes first here; no earlier arm takes `/`).
     */
    method NextToken() returns (t: Token)
      requires Valid()
      modifies this
      ensures Valid()
      ensures t == Scan(classes, input, old(position)).token && position == Scan(classes, input, old(position)).end
      decreases |input| - position, 2
    {
      SkipWhitespace();
      TriviaAfterSpace(input, old(position));
      t := TokenAfterSpace();
    }

    /** `next_token` once the white space is behind: the end of input, a comment to skip, or a token. */
    method TokenAfterSpace() returns (t: Token)
      requires Valid() && (position == |input| || !IsWhitespace(input[position]))
      modifies this
      ensures Valid()
      ensures t == Scan(classes, input, old(position)).token && position == Scan(classes, input, old(position)).end
      decreases |input| - position, 1
    {
      ghost var q := position;
      var next := Advance();
      if next.None? {
        t := EndOfInput();
      } else {
        var c := next.value;
        var following := Peek();
        if c == '/' && following == Some('/') {
          t := AfterComment(q);
        } else {
          assert !CommentAt(input, q);
          TriviaStart(input, q);
          t := ReadToken(c);
        }
      }
    }

    /** At the end of input: the Eof token, at the current line and column. */
    method EndOfInput() returns (t: Token)
      requires Valid() && position == |input|
      ensures t == Scan(classes, input, position).token && position == Scan(classes, input, position).end
      ensures t.kind == Eof && Place(t.line, t.column) == Locate(input)
    {
      assert input[..position] == input;
      t := Token(Eof, "", line, column);
    }

    /** The first `/` of a comment that starts at `q` was just consumed: skip the comment, then read on. */
    method AfterComment(ghost q: nat) returns (t: Token)
      requires Valid() && position == q + 1 && q < |input| && CommentAt(input, q) && !IsWhitespace(input[q])
      modifies this
      ensures Valid()
      ensures t == Scan(classes, input, q).token && position == Scan(classes, input, q).end
      decreases |input| - q, 0
    {
      var _ := Advance();
      ReadComment();
      TriviaComment(input, q);
      assert SkipTrivia(input, q) == SkipTrivia(input, position);
      ghost var scanned := Scan(classes, input, position);
      t := NextToken();
      assert t == scanned.token && position == scanned.end;
    }

    /** The token whose first character `c` was just consumed, where no comment starts. */
    method ReadToken(c: char) returns (t: Token)
      requires Valid() && 0 < position <= |input| && input[position - 1] == c && !CommentAt(input, position - 1)
      modifies this
      ensures Valid()
      ensures var r := ScanAt(classes, input, old(position) - 1); t == r.token && position == r.end
    {
      if SingleKind(c).Some? || PairOf(c).Some? {
        t := ReadOperator(c);
      } else {
        t := ReadOther(c);
      }
    }

    /** The one- and two-character operators and punctuation, whose first character `c` was just consumed. */
    method ReadOperator(c: char) returns (t: Token)
      requires Valid() && 0 < position <= |input| && input[position - 1] == c
      requires SingleKind(c).Some? || PairOf(c).Some?
      modifies this
      ensures Valid()
      ensures var r := OperatorAt(input, old(position) - 1); t == r.token && position == r.end
    {
      ghost var q := position - 1;
      var single := SingleKind(c);
      if single.Some? {
        t := Token(single.value, [c], line, column - 1);
      } else {
        var pair := PairOf(c).value;
        var following := Peek();
        if following == Some(pair.second) {
          var _ := Advance();
          t := Token(pair.double, [c, pair.second], line, column - 2);
        } else {
          t := Token(pair.single, [c], line, column - 1);
        }
      }
    }

    /** A string, a lone `/`, an identifier or keyword, a number, or an Invalid character, whose first character `c` was just consumed. */
    method ReadOther(c: char) returns (t: Token)
      requires Valid() && 0 < position <= |input| && input[position - 1] == c
      requires SingleKind(c).None? && PairOf(c).None?
      modifies this
      ensures Valid()
      ensures var r := OtherAt(classes, input, old(position) - 1); t == r.token && position == r.end
    {
      ghost var q := position - 1;
      if c == '"' {
        t := ReadString();
        Cons(input, q, position);
      } else if c == '/' {
        t := Token(Slash, "/", line, column - 1);
      } else if IdentifierStart(classes, c) || IsDigit(c) {
        t := ReadWord(c);
      } else {
        t := Token(Invalid, [c], line, column - 1);
      }
    }

    /** An identifier, keyword or number whose first character `c` was just read. */
    method ReadWord(c: char) returns (t: Token)
      requires Valid() && 0 < position <= |input| && input[position - 1] == c
      requires SingleKind(c).None? && PairOf(c).None? && c != '"' && c != '/'
      requires IdentifierStart(classes, c) || IsDigit(c)
      modifies this
      ensures Valid()
      ensures var r := OtherAt(classes, input, old(position) - 1); t == r.token && position == r.end
    {
      ghost var q := position - 1;
      if IdentifierStart(classes, c) {
        t := ReadIdentifier(c);
      } else {
        t := ReadNumber(c);
      }
      Cons(input, q, position);
    }

    /** All remaining tokens, ending with the single Eof token. */
    method Lex() returns (tokens: seq<Token>)
      requires Valid()
      modifies this
      ensures Valid() && position == |input|
      ensures tokens == Tokenize(classes, input, old(position))
    {
      tokens := [];
      while true
        invariant Valid() && old(position) <= position
        invariant tokens + Tokenize(classes, input, position) == Tokenize(classes, input, old(position))
        decreases |input| - position
      {
        ghost var before := position;
        var token := NextToken();
        if token.kind == Eof {
          tokens := tokens + [token];
          break;
        }
        TokenizeStep(classes, input, before);
        Append(tokens, token, Tokenize(classes, input, position));
        tokens := tokens + [token];
      }
    }
  }
}
