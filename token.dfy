/** Token kinds and tokens, as the lexer produces them and the parser reads them. */
module Tokens {
  datatype TokenType =
    // keywords
    | Var | Trait | Object | While | For | In | True | False | Null
    | If | Else | Break | Continue | Return
    // identifiers and literals
    | Identifier | NumberLiteral | StringLiteral
    // arithmetic
    | Plus | Minus | Star | Slash | Percent
    // comparison
    | Equal | EqualEqual | BangEqual | Greater | GreaterEqual | Less | LessEqual
    // logical
    | And | Or | Bang
    // delimiters
    | Dot | Comma | Colon | Semicolon
    | LeftParen | RightParen | LeftBrace | RightBrace | LeftBracket | RightBracket
    // special
    | Eof | Invalid

  /** `line` and `column` are 1-based; `column` can drop below 1 where the lexer subtracts a byte length. */
  datatype Token = Token(kind: TokenType, lexeme: string, line: int, column: int)
}
