/**
 * The grammar `parser.rs` recognises, written as a functional recursive
 * descent over the token sequence: every production takes the position of
 * the cursor and gives back what it built together with the position after
 * it, or the panic that stops the parser.  The `Parser` class (parser.dfy)
 * is proved to compute exactly these functions.
 *
 * The token sequence always ends with its Eof token (`Terminated`), as the
 * lexer's output does; positions stay below its length because `advance`
 * never moves past that last token.
 */
module Grammar {
  import opened Wrappers
  import opened Tokens
  import A = Ast

  /** What a `consume` expected; `Message` gives the text the parser panics with. */
  datatype Expectation =
    | ObjectKeyword | ObjectName | ObjectBodyOpen | ObjectBodyClose
    | TraitKeyword | TraitName | TraitBodyOpen | SignatureEnd | TraitBodyClose
    | VarKeyword | VariableName | VarEqual | VarEnd
    | MethodName | ParamsOpen | ParamsClose | ParameterName | TypeName | TypePart
    | WhileKeyword | WhileOpen | ConditionClose
    | ForKeyword | ForOpen | ForVar | ForVariable | InKeyword | ForClose
    | IfKeyword | IfOpen
    | BreakKeyword | BreakEnd | ContinueKeyword | ContinueEnd | ReturnKeyword | ReturnEnd
    | BlockOpen | BlockClose | ExpressionEnd
    | ArgumentsClose | PropertyName | MethodArgumentsClose | IndexClose | GroupClose
    | ObjectTypeOpen | FieldName | FieldEqual | FieldsClose | ElementsClose

  /** The panic message of each expectation, as the parser writes it. */
  function Message(what: Expectation): string
  {
    match what
    case ObjectKeyword => "Expected 'object' keyword"
    case ObjectName => "Expected object name"
    case ObjectBodyOpen => "Expected '{' after object name"
    case ObjectBodyClose => "Expected '}' after object body"
    case TraitKeyword => "Expected 'trait' keyword"
    case TraitName => "Expected trait name"
    case TraitBodyOpen => "Expected '{' after trait name"
    case SignatureEnd => "Expected ';' after method signature"
    case TraitBodyClose => "Expected '}' after trait body"
    case VarKeyword => "Expected 'var' keyword"
    case VariableName => "Expected variable name"
    case VarEqual => "Expected '=' after variable name"
    case VarEnd => "Expected ';' after variable declaration"
    case MethodName => "Expected method name"
    case ParamsOpen => "Expected '(' after method name"
    case ParamsClose => "Expected ')' after parameters"
    case ParameterName => "Expected parameter name"
    case TypeName => "Expected type name"
    case TypePart => "Expected identifier after '.'"
    case WhileKeyword => "Expected 'while' keyword"
    case WhileOpen => "Expected '(' after 'while'"
    case ConditionClose => "Expected ')' after condition"
    case ForKeyword => "Expected 'for' keyword"
    case ForOpen => "Expected '(' after 'for'"
    case ForVar => "Expected 'var' keyword in for loop"
    case ForVariable => "Expected iteration variable name"
    case InKeyword => "Expected 'in' keyword"
    case ForClose => "Expected ')' after iteration variable"
    case IfKeyword => "Expected 'if' keyword"
    case IfOpen => "Expected '(' after 'if'"
    case BreakKeyword => "Expected 'break' keyword"
    case BreakEnd => "Expected ';' after break statement"
    case ContinueKeyword => "Expected 'continue' keyword"
    case ContinueEnd => "Expected ';' after continue statement"
    case ReturnKeyword => "Expected 'return' keyword"
    case ReturnEnd => "Expected ';' after return statement"
    case BlockOpen => "Expected '{' before block"
    case BlockClose => "Expected '}' after block"
    case ExpressionEnd => "Expected ';' after expression"
    case ArgumentsClose => "Expected ')' after arguments"
    case PropertyName => "Expected property name after '.'"
    case MethodArgumentsClose => "Expected ')' after method arguments"
    case IndexClose => "Expected ']' after array index"
    case GroupClose => "Expected ')' after expression"
    case ObjectTypeOpen => "Expected '{' after object type"
    case FieldName => "Expected field name"
    case FieldEqual => "Expected '=' after field name"
    case FieldsClose => "Expected '}' after object fields"
    case ElementsClose => "Expected ']' after array elements"
  }

  /**
   * Why the parser panics: a `consume` that did not find what it expected,
   * `primary` on a token that starts no expression, or `previous` before
   * the first token.
   */
  datatype ParseError = Expected(what: Expectation) | ExpectedExpression(found: Token) | CursorUnderflow

  /** What a production gives: the value and the cursor after it, or the panic. */
  datatype Parsed<T> = Success(value: T, next: nat) | Failure(error: ParseError)

  predicate Terminated(ts: seq<Token>)
  {
    |ts| > 0 && ts[|ts| - 1].kind == Eof
  }

  // ------------------------------------------------------------- the cursor

  predicate IsAtEnd(ts: seq<Token>, p: nat)
    requires p < |ts|
  {
    ts[p].kind == Eof
  }

  /** `check`: the current token has this kind, and it is not the end. */
  predicate Check(ts: seq<Token>, p: nat, kind: TokenType)
    requires p < |ts|
  {
    !IsAtEnd(ts, p) && ts[p].kind == kind
  }

  /** `match_token_sequence_no_advance`: the tokens from the cursor on have these kinds, none of them the end. */
  predicate SequenceAt(ts: seq<Token>, p: nat, kinds: seq<TokenType>)
    requires Terminated(ts) && p < |ts|
    decreases |kinds|
  {
    |kinds| == 0 || (Check(ts, p, kinds[0]) && SequenceAt(ts, p + 1, kinds[1..]))
  }

  /** `advance`: one step forward unless at the end, giving the token just passed (`previous`). */
  function Advance(ts: seq<Token>, p: nat): (r: Parsed<Token>)
    requires Terminated(ts) && p < |ts|
    ensures r.Success? ==> 0 < r.next < |ts| && r.value == ts[r.next - 1]
    ensures r.Success? && IsAtEnd(ts, p) ==> r.next == p
    ensures r.Success? && !IsAtEnd(ts, p) ==> r.next == p + 1
    ensures r.Failure? <==> p == 0 && IsAtEnd(ts, p)
  {
    var q := if IsAtEnd(ts, p) then p else p + 1;
    if q == 0 then Failure(CursorUnderflow) else Success(ts[q - 1], q)
  }

  /** `consume`: the current token when it has the expected kind, a panic otherwise. */
  function Consume(ts: seq<Token>, p: nat, kind: TokenType, what: Expectation): (r: Parsed<Token>)
    requires Terminated(ts) && p < |ts|
    ensures r.Success? <==> Check(ts, p, kind)
    ensures r.Success? ==> r.value == ts[p] && r.next == p + 1 < |ts|
    ensures r.Failure? ==> r.error == Expected(what)
  {
    if Check(ts, p, kind) then Success(ts[p], p + 1) else Failure(Expected(what))
  }

  /** `consume_identifier`: the lexeme of an Identifier token. */
  function ConsumeIdentifier(ts: seq<Token>, p: nat, what: Expectation): (r: Parsed<string>)
    requires Terminated(ts) && p < |ts|
    ensures r.Success? <==> Check(ts, p, Identifier)
    ensures r.Success? ==> r.value == ts[p].lexeme && r.next == p + 1 < |ts|
    ensures r.Failure? ==> r.error == Expected(what)
  {
    if Check(ts, p, Identifier) then Success(ts[p].lexeme, p + 1) else Failure(Expected(what))
  }

  // ------------------------------------------------------- type annotations

  /** `type_annotation`: nothing without a colon, else one or more `+`-separated type names. */
  function TypeAnnotation(ts: seq<Token>, p: nat): (r: Parsed<A.Annotation>)
    requires Terminated(ts) && p < |ts|
    ensures r.Success? ==> p <= r.next < |ts|
    ensures !Check(ts, p, Colon) ==> r == Success(None, p)
    ensures Check(ts, p, Colon) && r.Success? ==> r.value.Some? && |r.value.value| > 0
  {
    if !Check(ts, p, Colon) then Success(None, p)
    else
      match TypeList(ts, p + 1, [])
      case Failure(e) => Failure(e)
      case Success(types, q) => Success(Some(types), q)
  }

  /** The loop of `type_annotation`: one type name, then another after each `+`. */
  function TypeList(ts: seq<Token>, p: nat, types: seq<string>): (r: Parsed<seq<string>>)
    requires Terminated(ts) && p < |ts|
    ensures r.Success? ==> p < r.next < |ts| && |r.value| > |types|
    decreases |ts| - p
  {
    match TypeIdentifier(ts, p)
    case Failure(e) => Failure(e)
    case Success(name, q) => TypesAfter(ts, q, types + [name])
  }

  /** After a type name: another one after `+`, else the end of the annotation. */
  function TypesAfter(ts: seq<Token>, p: nat, types: seq<string>): (r: Parsed<seq<string>>)
    requires Terminated(ts) && p < |ts|
    ensures r.Success? ==> p <= r.next < |ts| && |r.value| >= |types|
    decreases |ts| - p
  {
    if Check(ts, p, Plus) then TypeList(ts, p + 1, types) else Success(types, p)
  }

  /** `type_identifier`: identifiers separated by `.`, joined with `.`. */
  function TypeIdentifier(ts: seq<Token>, p: nat): (r: Parsed<string>)
    requires Terminated(ts) && p < |ts|
    ensures r.Success? ==> p < r.next < |ts|
  {
    match ConsumeIdentifier(ts, p, TypeName)
    case Failure(e) => Failure(e)
    case Success(first, q) => DottedName(ts, q, first)
  }

  /** The loop of `type_identifier`: after each `.`, one more identifier joins the name with its `.`. */
  function DottedName(ts: seq<Token>, p: nat, name: string): (r: Parsed<string>)
    requires Terminated(ts) && p < |ts|
    ensures r.Success? ==> p <= r.next < |ts|
    decreases |ts| - p
  {
    if !Check(ts, p, Dot) then Success(name, p)
    else
      match ConsumeIdentifier(ts, p + 1, TypePart)
      case Failure(e) => Failure(e)
      case Success(part, q) => DottedName(ts, q, name + "." + part)
  }

  // ------------------------------------------------------------ expressions

  /** The operator a token stands for at one binary level, from loosest (0, `||`) to tightest (5, `*`). */
  function LevelOperator(level: nat, kind: TokenType): (op: Option<A.BinaryOp>)
    ensures op.Some? ==> level <= Tightest
  {
    match (level, kind)
    case (0, Or) => Some(A.Or)
    case (1, And) => Some(A.And)
    case (2, EqualEqual) => Some(A.Equal)
    case (2, BangEqual) => Some(A.NotEqual)
    case (3, Less) => Some(A.Less)
    case (3, LessEqual) => Some(A.LessEqual)
    case (3, Greater) => Some(A.Greater)
    case (3, GreaterEqual) => Some(A.GreaterEqual)
    case (4, Plus) => Some(A.Add)
    case (4, Minus) => Some(A.Subtract)
    case (5, Star) => Some(A.Multiply)
    case (5, Slash) => Some(A.Divide)
    case (5, Percent) => Some(A.Modulo)
    case _ => None
  }

  const Tightest: nat := 5

  /** The operator of `level` at the cursor, when the cursor is not at the end. */
  function OperatorAt(ts: seq<Token>, p: nat, level: nat): Option<A.BinaryOp>
    requires p < |ts|
  {
    if IsAtEnd(ts, p) then None else LevelOperator(level, ts[p].kind)
  }

  /** `expression`: an assignment. */
  function Expression(ts: seq<Token>, p: nat): (r: Parsed<A.Expression>)
    requires Terminated(ts) && p < |ts|
    ensures r.Success? ==> p <= r.next < |ts|
    decreases |ts| - p, 30
  {
    Assignment(ts, p)
  }

  /** `assignment`: a `||` expression, and if `=` follows, that expression as the target of the assignment after it. */
  function Assignment(ts: seq<Token>, p: nat): (r: Parsed<A.Expression>)
    requires Terminated(ts) && p < |ts|
    ensures r.Success? ==> p <= r.next < |ts|
    decreases |ts| - p, 29
  {
    match BinaryLevel(ts, p, 0)
    case Failure(e) => Failure(e)
    case Success(target, q) =>
      if !Check(ts, q, Equal) then Success(target, q)
      else
        match Assignment(ts, q + 1)
        case Failure(e) => Failure(e)
        case Success(value, q') => Success(A.Assignment(target, value), q')
  }

  /** The operand of a binary level: the next tighter level, or `unary` under the tightest. */
  function Operand(ts: seq<Token>, p: nat, level: nat): (r: Parsed<A.Expression>)
    requires Terminated(ts) && p < |ts| && level <= Tightest
    ensures r.Success? ==> p <= r.next < |ts|
    decreases |ts| - p, 19 - 3 * level
  {
    if level == Tightest then Unary(ts, p) else BinaryLevel(ts, p, level + 1)
  }

  /** `logical_or`, `logical_and`, `equality`, `comparison`, `term`, `factor`: an operand, then operator and operand pairs, folded from the left. */
  function BinaryLevel(ts: seq<Token>, p: nat, level: nat): (r: Parsed<A.Expression>)
    requires Terminated(ts) && p < |ts| && level <= Tightest
    ensures r.Success? ==> p <= r.next < |ts|
    decreases |ts| - p, 20 - 3 * level
  {
    match Operand(ts, p, level)
    case Failure(e) => Failure(e)
    case Success(left, q) => BinaryTail(ts, q, level, left)
  }

  /** The loop of a binary level: while an operator of the level follows, the tree so far becomes its left operand. */
  function BinaryTail(ts: seq<Token>, p: nat, level: nat, left: A.Expression): (r: Parsed<A.Expression>)
    requires Terminated(ts) && p < |ts| && level <= Tightest
    ensures r.Success? ==> p <= r.next < |ts| && OperatorAt(ts, r.next, level).None?
    decreases |ts| - p, 18 - 3 * level
  {
    match OperatorAt(ts, p, level)
    case None => Success(left, p)
    case Some(op) =>
      match Operand(ts, p + 1, level)
      case Failure(e) => Failure(e)
      case Success(right, q) => BinaryTail(ts, q, level, A.Binary(left, op, right))
  }

  /** The unary operator a token stands for. */
  function PrefixOperator(kind: TokenType): Option<A.UnaryOp>
  {
    match kind
    case Bang => Some(A.Not)
    case Minus => Some(A.Negate)
    case _ => None
  }

  /** The run of `!` and `-` at the cursor, in the order they are written. */
  function Prefixes(ts: seq<Token>, p: nat): (ops: seq<A.UnaryOp>)
    requires Terminated(ts) && p < |ts|
    ensures p + |ops| < |ts|
    decreases |ts| - p
  {
    match PrefixOperator(ts[p].kind)
    case None => []
    case Some(op) => [op] + Prefixes(ts, p + 1)
  }

  /** The operators applied to an operand, the first one outermost. */
  function Wrap(ops: seq<A.UnaryOp>, operand: A.Expression): A.Expression
  {
    if |ops| == 0 then operand else A.Unary(ops[0], Wrap(ops[1..], operand))
  }

  /** `unary`: the prefix operators, then a postfix expression they apply to. */
  function Unary(ts: seq<Token>, p: nat): (r: Parsed<A.Expression>)
    requires Terminated(ts) && p < |ts|
    ensures r.Success? ==> p <= r.next < |ts|
    decreases |ts| - p, 3
  {
    var ops := Prefixes(ts, p);
    Applied(ops, Postfix(ts, p + |ops|))
  }

  /** The operators applied to a parsed operand; a failure stays the failure. */
  function Applied(ops: seq<A.UnaryOp>, operand: Parsed<A.Expression>): (r: Parsed<A.Expression>)
    ensures r.Success? <==> operand.Success?
    ensures r.Success? ==> r.next == operand.next
  {
    match operand
    case Failure(e) => Failure(e)
    case Success(v, q) => Success(Wrap(ops, v), q)
  }

  /** `postfix_expression`: a primary, then at most one call, member access or index. */
  function Postfix(ts: seq<Token>, p: nat): (r: Parsed<A.Expression>)
    requires Terminated(ts) && p < |ts|
    ensures r.Success? ==> p <= r.next < |ts|
    decreases |ts| - p, 2
  {
    match Primary(ts, p)
    case Failure(e) => Failure(e)
    case Success(primary, q) => Suffix(ts, q, primary)
  }

  /** What may follow a primary: a call, a member access, an index, or nothing. */
  function Suffix(ts: seq<Token>, p: nat, primary: A.Expression): (r: Parsed<A.Expression>)
    requires Terminated(ts) && p < |ts|
    ensures r.Success? ==> p <= r.next < |ts|
    decreases |ts| - p, 1
  {
    if Check(ts, p, LeftParen) then Call(ts, p + 1, primary)
    else if Check(ts, p, Dot) then Member(ts, p + 1, primary)
    else if Check(ts, p, LeftBracket) then Index(ts, p + 1, primary)
    else Success(primary, p)
  }

  /** The call after `(`: its arguments, unless `)` follows at once, and the closing `)`. */
  function Call(ts: seq<Token>, p: nat, callee: A.Expression): (r: Parsed<A.Expression>)
    requires Terminated(ts) && p < |ts|
    ensures r.Success? ==> p < r.next < |ts| && r.value.Call? && r.value.callee == callee
    decreases |ts| - p, 34
  {
    match (if !Check(ts, p, RightParen) then ArgumentList(ts, p, []) else Success([], p))
    case Failure(e) => Failure(e)
    case Success(arguments, q) =>
      match Consume(ts, q, RightParen, ArgumentsClose)
      case Failure(e) => Failure(e)
      case Success(_, q') => Success(A.Call(callee, arguments), q')
  }

  /** The member after `.`: a method call when `(` follows (its argument list is not optional), a field otherwise. */
  function Member(ts: seq<Token>, p: nat, receiver: A.Expression): (r: Parsed<A.Expression>)
    requires Terminated(ts) && p < |ts|
    ensures r.Success? ==> p < r.next < |ts|
    ensures r.Success? ==> (r.value.MethodAccess? || r.value.FieldAccess?) && r.value.receiver == receiver
    decreases |ts| - p, 34
  {
    match ConsumeIdentifier(ts, p, PropertyName)
    case Failure(e) => Failure(e)
    case Success(member, q) =>
      if !Check(ts, q, LeftParen) then Success(A.FieldAccess(receiver, member), q)
      else
        match ArgumentList(ts, q + 1, [])
        case Failure(e) => Failure(e)
        case Success(arguments, q') =>
          match Consume(ts, q', RightParen, MethodArgumentsClose)
          case Failure(e) => Failure(e)
          case Success(_, q'') => Success(A.MethodAccess(receiver, member, arguments), q'')
  }

  /** The index after `[` and the closing `]`. */
  function Index(ts: seq<Token>, p: nat, indexed: A.Expression): (r: Parsed<A.Expression>)
    requires Terminated(ts) && p < |ts|
    ensures r.Success? ==> p < r.next < |ts| && r.value.ArrayAccess? && r.value.indexed == indexed
    decreases |ts| - p, 34
  {
    match Expression(ts, p)
    case Failure(e) => Failure(e)
    case Success(index, q) =>
      match Consume(ts, q, RightBracket, IndexClose)
      case Failure(e) => Failure(e)
      case Success(_, q') => Success(A.ArrayAccess(indexed, index), q')
  }

  /** `argument_list`: expressions separated by `,`, at least one. */
  function ArgumentList(ts: seq<Token>, p: nat, arguments: seq<A.Expression>): (r: Parsed<seq<A.Expression>>)
    requires Terminated(ts) && p < |ts|
    ensures r.Success? ==> p <= r.next < |ts| && |r.value| > |arguments|
    decreases |ts| - p, 33
  {
    match Expression(ts, p)
    case Failure(e) => Failure(e)
    case Success(argument, q) => ArgumentsAfter(ts, q, arguments + [argument])
  }

  /** After an argument: another one after `,`, else the end of the list. */
  function ArgumentsAfter(ts: seq<Token>, p: nat, arguments: seq<A.Expression>): (r: Parsed<seq<A.Expression>>)
    requires Terminated(ts) && p < |ts|
    ensures r.Success? ==> p <= r.next < |ts| && |r.value| >= |arguments|
    decreases |ts| - p, 32
  {
    if Check(ts, p, Comma) then ArgumentList(ts, p + 1, arguments) else Success(arguments, p)
  }

  /** `primary`: object construction when an identifier is followed by `{`, a bracketed form, or a literal or name. */
  function Primary(ts: seq<Token>, p: nat): (r: Parsed<A.Expression>)
    requires Terminated(ts) && p < |ts|
    ensures r.Success? ==> p <= r.next < |ts|
    decreases |ts| - p, 1
  {
    if SequenceAt(ts, p, [Identifier, LeftBrace]) then ObjectConstruction(ts, p)
    else if Check(ts, p, LeftBrace) then AnonymousObjectConstruction(ts, p + 1)
    else if Check(ts, p, LeftBracket) then ArrayConstruction(ts, p + 1)
    else if Check(ts, p, LeftParen) then Group(ts, p + 1)
    else Atom(ts, p)
  }

  /** The last case of `primary`: the token passed by `advance` must be a literal or a name. */
  function Atom(ts: seq<Token>, p: nat): (r: Parsed<A.Expression>)
    requires Terminated(ts) && p < |ts|
    ensures r.Success? ==> p <= r.next < |ts| && 0 < r.next && Literal(ts[r.next - 1]) == Some(r.value)
    ensures r.Failure? && p > 0 ==> r.error.ExpectedExpression?
  {
    match Advance(ts, p)
    case Failure(e) => Failure(e)
    case Success(token, q) =>
      match Literal(token)
      case Some(e) => Success(e, q)
      case None => Failure(ExpectedExpression(token))
  }

  /** The expression a single token stands for: a name, a literal, `true`, `false` or `null`. */
  function Literal(t: Token): (e: Option<A.Expression>)
    ensures e.Some? <==> t.kind in {Identifier, StringLiteral, NumberLiteral, True, False, Null}
  {
    match t.kind
    case Identifier => Some(A.Identifier(t.lexeme))
    case StringLiteral => Some(A.StringLiteral(t.lexeme))
    case NumberLiteral => Some(A.NumberLiteral(t.lexeme))
    case True => Some(A.BoolLiteral(true))
    case False => Some(A.BoolLiteral(false))
    case Null => Some(A.Null)
    case _ => None
  }

  /** `group`: the expression after `(` and the closing `)`; no node of its own. */
  function Group(ts: seq<Token>, p: nat): (r: Parsed<A.Expression>)
    requires Terminated(ts) && p < |ts|
    ensures r.Success? ==> p < r.next < |ts|
    decreases |ts| - p, 31
  {
    match Expression(ts, p)
    case Failure(e) => Failure(e)
    case Success(e, q) =>
      match Consume(ts, q, RightParen, GroupClose)
      case Failure(err) => Failure(err)
      case Success(_, q') => Success(e, q')
  }

  /** `object_construction`: a type name, then `{`, the fields and `}`. */
  function ObjectConstruction(ts: seq<Token>, p: nat): (r: Parsed<A.Expression>)
    requires Terminated(ts) && p < |ts|
    ensures r.Success? ==> p < r.next < |ts| && r.value.ObjectConstruction? && r.value.typeName.Some?
    decreases |ts| - p, 0
  {
    match TypeIdentifier(ts, p)
    case Failure(e) => Failure(e)
    case Success(name, q) =>
      match Consume(ts, q, LeftBrace, ObjectTypeOpen)
      case Failure(e) => Failure(e)
      case Success(_, q') =>
        match FieldList(ts, q')
        case Failure(e) => Failure(e)
        case Success(fields, q'') => Success(A.ObjectConstruction(Some(name), fields), q'')
  }

  /** `anonymous_object_construction`: after `{`, the fields and `}`. */
  function AnonymousObjectConstruction(ts: seq<Token>, p: nat): (r: Parsed<A.Expression>)
    requires Terminated(ts) && p < |ts|
    ensures r.Success? ==> p < r.next < |ts| && r.value.ObjectConstruction? && r.value.typeName.None?
    decreases |ts| - p, 37
  {
    match FieldList(ts, p)
    case Failure(e) => Failure(e)
    case Success(fields, q) => Success(A.ObjectConstruction(None, fields), q)
  }

  /** The fields of an object literal and its closing `}`; both forms share this loop. */
  function FieldList(ts: seq<Token>, p: nat): (r: Parsed<seq<A.Field>>)
    requires Terminated(ts) && p < |ts|
    ensures r.Success? ==> p < r.next < |ts|
    decreases |ts| - p, 36
  {
    match Fields(ts, p, [])
    case Failure(e) => Failure(e)
    case Success(fields, q) =>
      match Consume(ts, q, RightBrace, FieldsClose)
      case Failure(e) => Failure(e)
      case Success(_, q') => Success(fields, q')
  }

  /**
   * The loop over `name = value` entries: it stops at `}`, after an entry
   * with no `,`, or after a `,` followed by `}` (a trailing comma).
   */
  function Fields(ts: seq<Token>, p: nat, fields: seq<A.Field>): (r: Parsed<seq<A.Field>>)
    requires Terminated(ts) && p < |ts|
    ensures r.Success? ==> p <= r.next < |ts|
    decreases |ts| - p, 35
  {
    if Check(ts, p, RightBrace) then Success(fields, p)
    else
      match FieldEntry(ts, p)
      case Failure(e) => Failure(e)
      case Success(entry, q) => FieldsAfterEntry(ts, q, Insert(fields, entry.name, entry.value))
  }

  /** After an entry: the end without a `,`; after a `,`, the end when `}` follows, else the next entry. */
  function FieldsAfterEntry(ts: seq<Token>, p: nat, fields: seq<A.Field>): (r: Parsed<seq<A.Field>>)
    requires Terminated(ts) && p < |ts|
    ensures r.Success? ==> p <= r.next < |ts|
    decreases |ts| - p, 35
  {
    if !Check(ts, p, Comma) then Success(fields, p)
    else if Check(ts, p + 1, RightBrace) then Success(fields, p + 1)
    else Fields(ts, p + 1, fields)
  }

  /** One entry of an object literal: a name, `=` and a value. */
  function FieldEntry(ts: seq<Token>, p: nat): (r: Parsed<A.Field>)
    requires Terminated(ts) && p < |ts|
    ensures r.Success? ==> Check(ts, p, Identifier) && p < r.next < |ts| && r.value.name == ts[p].lexeme
    decreases |ts| - p, 34
  {
    match ConsumeIdentifier(ts, p, FieldName)
    case Failure(e) => Failure(e)
    case Success(name, q) =>
      match Consume(ts, q, Equal, FieldEqual)
      case Failure(e) => Failure(e)
      case Success(_, q') =>
        match Expression(ts, q')
        case Failure(e) => Failure(e)
        case Success(value, q'') => Success(A.Field(name, value), q'')
  }

  /** `array_construction`: after `[`, the elements unless `]` follows at once, and `]`. */
  function ArrayConstruction(ts: seq<Token>, p: nat): (r: Parsed<A.Expression>)
    requires Terminated(ts) && p < |ts|
    ensures r.Success? ==> p < r.next < |ts| && r.value.ArrayConstruction?
    decreases |ts| - p, 35
  {
    match (if !Check(ts, p, RightBracket) then Elements(ts, p, []) else Success([], p))
    case Failure(e) => Failure(e)
    case Success(elements, q) =>
      match Consume(ts, q, RightBracket, ElementsClose)
      case Failure(e) => Failure(e)
      case Success(_, q') => Success(A.ArrayConstruction(elements), q')
  }

  /** The loop over array elements: one element, then what follows it. */
  function Elements(ts: seq<Token>, p: nat, elements: seq<A.Expression>): (r: Parsed<seq<A.Expression>>)
    requires Terminated(ts) && p < |ts|
    ensures r.Success? ==> p <= r.next < |ts| && |r.value| > |elements|
    decreases |ts| - p, 33
  {
    match Expression(ts, p)
    case Failure(e) => Failure(e)
    case Success(element, q) => ElementsAfter(ts, q, elements + [element])
  }

  /** After an element: the end without a `,`; after a `,`, the end when `]` follows, else the next element. */
  function ElementsAfter(ts: seq<Token>, p: nat, elements: seq<A.Expression>): (r: Parsed<seq<A.Expression>>)
    requires Terminated(ts) && p < |ts|
    ensures r.Success? ==> p <= r.next < |ts| && |r.value| >= |elements|
    decreases |ts| - p, 32
  {
    if !Check(ts, p, Comma) then Success(elements, p)
    else if Check(ts, p + 1, RightBracket) then Success(elements, p + 1)
    else Elements(ts, p + 1, elements)
  }

  // ---------------------------------------------------------- object fields

  /** The value of the field with this name. */
  function Lookup(fields: seq<A.Field>, name: string): Option<A.Expression>
  {
    if |fields| == 0 then None
    else if fields[0].name == name then Some(fields[0].value)
    else Lookup(fields[1..], name)
  }

  /** No two fields share a name, as in a map. */
  predicate UniqueNames(fields: seq<A.Field>)
  {
    forall i, j :: 0 <= i < j < |fields| ==> fields[i].name != fields[j].name
  }

  /** `HashMap::insert`: a new name is added at the end; an existing one keeps its place and takes the new value. */
  function Insert(fields: seq<A.Field>, name: string, value: A.Expression): (r: seq<A.Field>)
    ensures |r| == |fields| || |r| == |fields| + 1
  {
    if |fields| == 0 then [A.Field(name, value)]
    else if fields[0].name == name then [A.Field(name, value)] + fields[1..]
    else [fields[0]] + Insert(fields[1..], name, value)
  }

  // ------------------------------------------------------------- statements

  /** `statement`: chosen by the current token; anything else is an expression statement. */
  function Statement(ts: seq<Token>, p: nat): (r: Parsed<A.Statement>)
    requires Terminated(ts) && p < |ts|
    ensures r.Success? ==> p < r.next < |ts|
    decreases |ts| - p, 10
  {
    match ts[p].kind
    case Object => ObjectDeclaration(ts, p)
    case Trait => TraitDeclaration(ts, p)
    case Var => VarDeclaration(ts, p)
    case While => WhileStatement(ts, p)
    case For => ForStatement(ts, p)
    case If => IfStatement(ts, p)
    case Break => BreakStatement(ts, p)
    case Continue => ContinueStatement(ts, p)
    case Return => ReturnStatement(ts, p)
    case _ => ExpressionStatement(ts, p)
  }

  /** `object_declaration`: `object`, a name, an annotation, and method declarations in braces. */
  function ObjectDeclaration(ts: seq<Token>, p: nat): (r: Parsed<A.Statement>)
    requires Terminated(ts) && p < |ts|
    ensures r.Success? ==> p < r.next < |ts| && r.value.ObjectDecl?
    decreases |ts| - p, 9
  {
    match Consume(ts, p, Object, ObjectKeyword)
    case Failure(e) => Failure(e)
    case Success(_, q) =>
      match ConsumeIdentifier(ts, q, ObjectName)
      case Failure(e) => Failure(e)
      case Success(name, q') =>
        match TypeAnnotation(ts, q')
        case Failure(e) => Failure(e)
        case Success(annotation, q'') => ObjectBody(ts, q'', name, annotation)
  }

  /** The body of `object_declaration` after its annotation. */
  function ObjectBody(ts: seq<Token>, p: nat, name: string, annotation: A.Annotation): (r: Parsed<A.Statement>)
    requires Terminated(ts) && p < |ts|
    ensures r.Success? ==> p < r.next < |ts| && r.value.ObjectDecl? && r.value.name == name
    decreases |ts| - p, 8
  {
    match Consume(ts, p, LeftBrace, ObjectBodyOpen)
    case Failure(e) => Failure(e)
    case Success(_, q) =>
      match Methods(ts, q, [])
      case Failure(e) => Failure(e)
      case Success(methods, q') =>
        match Consume(ts, q', RightBrace, ObjectBodyClose)
        case Failure(e) => Failure(e)
        case Success(_, q'') => Success(A.ObjectDecl(name, annotation, methods), q'')
  }

  /** The loop of `object_declaration`: method declarations until `}` or the end. */
  function Methods(ts: seq<Token>, p: nat, methods: seq<A.MethodDeclaration>): (r: Parsed<seq<A.MethodDeclaration>>)
    requires Terminated(ts) && p < |ts|
    ensures r.Success? ==> p <= r.next < |ts| && (Check(ts, r.next, RightBrace) || IsAtEnd(ts, r.next))
    decreases |ts| - p, 3
  {
    if Check(ts, p, RightBrace) || IsAtEnd(ts, p) then Success(methods, p)
    else
      match MethodDeclaration(ts, p)
      case Failure(e) => Failure(e)
      case Success(m, q) => Methods(ts, q, methods + [m])
  }

  /** `method_declaration`: a signature and a block. */
  function MethodDeclaration(ts: seq<Token>, p: nat): (r: Parsed<A.MethodDeclaration>)
    requires Terminated(ts) && p < |ts|
    ensures r.Success? ==> p < r.next < |ts|
    decreases |ts| - p, 2
  {
    match MethodSignature(ts, p)
    case Failure(e) => Failure(e)
    case Success(signature, q) =>
      match Block(ts, q)
      case Failure(e) => Failure(e)
      case Success(body, q') => Success(A.MethodDeclaration(signature, body), q')
  }

  /** `method_signature`: a name, parameters in parentheses, and a return annotation. */
  function MethodSignature(ts: seq<Token>, p: nat): (r: Parsed<A.MethodSignature>)
    requires Terminated(ts) && p < |ts|
    ensures r.Success? ==> p < r.next < |ts| && r.value.name == ts[p].lexeme
  {
    match ConsumeIdentifier(ts, p, MethodName)
    case Failure(e) => Failure(e)
    case Success(name, q) =>
      match Consume(ts, q, LeftParen, ParamsOpen)
      case Failure(e) => Failure(e)
      case Success(_, q') => SignatureRest(ts, q', name)
  }

  /** The rest of `method_signature` after `(`: the parameters unless `)` follows at once, `)` and the return annotation. */
  function SignatureRest(ts: seq<Token>, p: nat, name: string): (r: Parsed<A.MethodSignature>)
    requires Terminated(ts) && p < |ts|
    ensures r.Success? ==> p < r.next < |ts| && r.value.name == name
  {
    match (if !Check(ts, p, RightParen) then ParameterList(ts, p, []) else Success([], p))
    case Failure(e) => Failure(e)
    case Success(params, q) =>
      match Consume(ts, q, RightParen, ParamsClose)
      case Failure(e) => Failure(e)
      case Success(_, q') =>
        match TypeAnnotation(ts, q')
        case Failure(e) => Failure(e)
        case Success(returnType, q'') => Success(A.MethodSignature(name, params, returnType), q'')
  }

  /** `parameter_list`: parameters separated by `,`, at least one. */
  function ParameterList(ts: seq<Token>, p: nat, params: seq<A.Parameter>): (r: Parsed<seq<A.Parameter>>)
    requires Terminated(ts) && p < |ts|
    ensures r.Success? ==> p < r.next < |ts| && |r.value| > |params|
    decreases |ts| - p
  {
    match Parameter(ts, p)
    case Failure(e) => Failure(e)
    case Success(param, q) => ParametersAfter(ts, q, params + [param])
  }

  /** After a parameter: another one after `,`, else the end of the list. */
  function ParametersAfter(ts: seq<Token>, p: nat, params: seq<A.Parameter>): (r: Parsed<seq<A.Parameter>>)
    requires Terminated(ts) && p < |ts|
    ensures r.Success? ==> p <= r.next < |ts| && |r.value| >= |params|
    decreases |ts| - p
  {
    if Check(ts, p, Comma) then ParameterList(ts, p + 1, params) else Success(params, p)
  }

  /** One parameter of `parameter_list`: a name and its annotation. */
  function Parameter(ts: seq<Token>, p: nat): (r: Parsed<A.Parameter>)
    requires Terminated(ts) && p < |ts|
    ensures r.Success? ==> p < r.next < |ts|
  {
    match ConsumeIdentifier(ts, p, ParameterName)
    case Failure(e) => Failure(e)
    case Success(name, q) =>
      match TypeAnnotation(ts, q)
      case Failure(e) => Failure(e)
      case Success(annotation, q') => Success(A.Parameter(name, annotation), q')
  }

  /** `trait_declaration`: `trait`, a name, an annotation, and `;`-terminated signatures in braces. */
  function TraitDeclaration(ts: seq<Token>, p: nat): (r: Parsed<A.Statement>)
    requires Terminated(ts) && p < |ts|
    ensures r.Success? ==> p < r.next < |ts| && r.value.TraitDecl?
  {
    match Consume(ts, p, Trait, TraitKeyword)
    case Failure(e) => Failure(e)
    case Success(_, q) =>
      match ConsumeIdentifier(ts, q, TraitName)
      case Failure(e) => Failure(e)
      case Success(name, q') =>
        match TypeAnnotation(ts, q')
        case Failure(e) => Failure(e)
        case Success(annotation, q'') => TraitBody(ts, q'', name, annotation)
  }

  /** The body of `trait_declaration` after its annotation. */
  function TraitBody(ts: seq<Token>, p: nat, name: string, annotation: A.Annotation): (r: Parsed<A.Statement>)
    requires Terminated(ts) && p < |ts|
    ensures r.Success? ==> p < r.next < |ts| && r.value.TraitDecl? && r.value.name == name
  {
    match Consume(ts, p, LeftBrace, TraitBodyOpen)
    case Failure(e) => Failure(e)
    case Success(_, q) =>
      match Signatures(ts, q, [])
      case Failure(e) => Failure(e)
      case Success(signatures, q') =>
        match Consume(ts, q', RightBrace, TraitBodyClose)
        case Failure(e) => Failure(e)
        case Success(_, q'') => Success(A.TraitDecl(name, annotation, signatures), q'')
  }

  /** The loop of `trait_declaration`: signatures, each followed by `;`, until `}` or the end. */
  function Signatures(ts: seq<Token>, p: nat, signatures: seq<A.MethodSignature>): (r: Parsed<seq<A.MethodSignature>>)
    requires Terminated(ts) && p < |ts|
    ensures r.Success? ==> p <= r.next < |ts| && (Check(ts, r.next, RightBrace) || IsAtEnd(ts, r.next))
    decreases |ts| - p
  {
    if Check(ts, p, RightBrace) || IsAtEnd(ts, p) then Success(signatures, p)
    else
      match MethodSignature(ts, p)
      case Failure(e) => Failure(e)
      case Success(signature, q) =>
        match Consume(ts, q, Semicolon, SignatureEnd)
        case Failure(e) => Failure(e)
        case Success(_, q') => Signatures(ts, q', signatures + [signature])
  }

  /** `var_declaration`: `var`, a name, an annotation, `=`, an initializer and `;`. */
  function VarDeclaration(ts: seq<Token>, p: nat): (r: Parsed<A.Statement>)
    requires Terminated(ts) && p < |ts|
    ensures r.Success? ==> p < r.next < |ts| && r.value.VarDecl?
  {
    match Consume(ts, p, Var, VarKeyword)
    case Failure(e) => Failure(e)
    case Success(_, q) =>
      match ConsumeIdentifier(ts, q, VariableName)
      case Failure(e) => Failure(e)
      case Success(name, q') =>
        match TypeAnnotation(ts, q')
        case Failure(e) => Failure(e)
        case Success(annotation, q'') => Initializer(ts, q'', name, annotation)
  }

  /** The rest of `var_declaration` after its annotation: `=`, the initializer and `;`. */
  function Initializer(ts: seq<Token>, p: nat, name: string, annotation: A.Annotation): (r: Parsed<A.Statement>)
    requires Terminated(ts) && p < |ts|
    ensures r.Success? ==> p < r.next < |ts| && r.value.VarDecl? && r.value.name == name
  {
    match Consume(ts, p, Equal, VarEqual)
    case Failure(e) => Failure(e)
    case Success(_, q) =>
      match Expression(ts, q)
      case Failure(e) => Failure(e)
      case Success(initializer, q') =>
        match Consume(ts, q', Semicolon, VarEnd)
        case Failure(e) => Failure(e)
        case Success(_, q'') => Success(A.VarDecl(name, annotation, initializer), q'')
  }

  /** `while_statement`: `while`, a condition in parentheses, and a block. */
  function WhileStatement(ts: seq<Token>, p: nat): (r: Parsed<A.Statement>)
    requires Terminated(ts) && p < |ts|
    ensures r.Success? ==> p < r.next < |ts| && r.value.While?
    decreases |ts| - p, 9
  {
    match Consume(ts, p, While, WhileKeyword)
    case Failure(e) => Failure(e)
    case Success(_, q) =>
      match Condition(ts, q, WhileOpen)
      case Failure(e) => Failure(e)
      case Success(condition, q') =>
        match Block(ts, q')
        case Failure(e) => Failure(e)
        case Success(body, q'') => Success(A.While(condition, body), q'')
  }

  /** The condition of `while` and `if`: `(`, an expression and `)`. */
  function Condition(ts: seq<Token>, p: nat, open: Expectation): (r: Parsed<A.Expression>)
    requires Terminated(ts) && p < |ts|
    ensures r.Success? ==> p < r.next < |ts|
  {
    match Consume(ts, p, LeftParen, open)
    case Failure(e) => Failure(e)
    case Success(_, q) =>
      match Expression(ts, q)
      case Failure(e) => Failure(e)
      case Success(condition, q') =>
        match Consume(ts, q', RightParen, ConditionClose)
        case Failure(e) => Failure(e)
        case Success(_, q'') => Success(condition, q'')
  }

  /** `for_statement`: `for (var name in iterable)` and a block. */
  function ForStatement(ts: seq<Token>, p: nat): (r: Parsed<A.Statement>)
    requires Terminated(ts) && p < |ts|
    ensures r.Success? ==> p < r.next < |ts| && r.value.For?
    decreases |ts| - p, 9
  {
    match Consume(ts, p, For, ForKeyword)
    case Failure(e) => Failure(e)
    case Success(_, q) =>
      match Consume(ts, q, LeftParen, ForOpen)
      case Failure(e) => Failure(e)
      case Success(_, q') =>
        match Consume(ts, q', Var, ForVar)
        case Failure(e) => Failure(e)
        case Success(_, q'') =>
          match ConsumeIdentifier(ts, q'', ForVariable)
          case Failure(e) => Failure(e)
          case Success(variable, q''') => ForRest(ts, q''', variable)
  }

  /** The rest of `for_statement` after the variable: `in`, the iterable, `)` and the block. */
  function ForRest(ts: seq<Token>, p: nat, variable: string): (r: Parsed<A.Statement>)
    requires Terminated(ts) && p < |ts|
    ensures r.Success? ==> p < r.next < |ts| && r.value.For? && r.value.variable == variable
    decreases |ts| - p, 8
  {
    match Consume(ts, p, In, InKeyword)
    case Failure(e) => Failure(e)
    case Success(_, q) =>
      match Expression(ts, q)
      case Failure(e) => Failure(e)
      case Success(iterable, q') =>
        match Consume(ts, q', RightParen, ForClose)
        case Failure(e) => Failure(e)
        case Success(_, q'') =>
          match Block(ts, q'')
          case Failure(e) => Failure(e)
          case Success(body, q''') => Success(A.For(variable, iterable, body), q''')
  }

  /** `if_statement`: `if`, a condition in parentheses, a block, and a block after `else` if there is one. */
  function IfStatement(ts: seq<Token>, p: nat): (r: Parsed<A.Statement>)
    requires Terminated(ts) && p < |ts|
    ensures r.Success? ==> p < r.next < |ts| && r.value.If?
    decreases |ts| - p, 9
  {
    match Consume(ts, p, If, IfKeyword)
    case Failure(e) => Failure(e)
    case Success(_, q) =>
      match Condition(ts, q, IfOpen)
      case Failure(e) => Failure(e)
      case Success(condition, q') => IfBranches(ts, q', condition)
  }

  /** The branches of `if_statement` after its condition. */
  function IfBranches(ts: seq<Token>, p: nat, condition: A.Expression): (r: Parsed<A.Statement>)
    requires Terminated(ts) && p < |ts|
    ensures r.Success? ==> p < r.next < |ts| && r.value.If? && r.value.condition == condition
    decreases |ts| - p, 8
  {
    match Block(ts, p)
    case Failure(e) => Failure(e)
    case Success(thenBranch, q) => ElseBranch(ts, q, condition, thenBranch)
  }

  /** After the `then` block: a block after `else` if one follows. */
  function ElseBranch(ts: seq<Token>, p: nat, condition: A.Expression, thenBranch: seq<A.Statement>): (r: Parsed<A.Statement>)
    requires Terminated(ts) && p < |ts|
    ensures r.Success? ==> p <= r.next < |ts| && r.value.If? && r.value.condition == condition
    ensures r.Success? ==> r.value.thenBranch == thenBranch && (r.value.elseBranch.Some? <==> Check(ts, p, Else))
    decreases |ts| - p, 8
  {
    if !Check(ts, p, Else) then Success(A.If(condition, thenBranch, None), p)
    else
      match Block(ts, p + 1)
      case Failure(e) => Failure(e)
      case Success(elseBranch, q) => Success(A.If(condition, thenBranch, Some(elseBranch)), q)
  }

  /** `break_statement`: `break` and `;`. */
  function BreakStatement(ts: seq<Token>, p: nat): (r: Parsed<A.Statement>)
    requires Terminated(ts) && p < |ts|
    ensures r.Success? <==> Check(ts, p, Break) && Check(ts, p + 1, Semicolon)
    ensures r.Success? ==> r == Success(A.Break, p + 2)
  {
    match Consume(ts, p, Break, BreakKeyword)
    case Failure(e) => Failure(e)
    case Success(_, q) =>
      match Consume(ts, q, Semicolon, BreakEnd)
      case Failure(e) => Failure(e)
      case Success(_, q') => Success(A.Break, q')
  }

  /** `continue_statement`: `continue` and `;`. */
  function ContinueStatement(ts: seq<Token>, p: nat): (r: Parsed<A.Statement>)
    requires Terminated(ts) && p < |ts|
    ensures r.Success? <==> Check(ts, p, Continue) && Check(ts, p + 1, Semicolon)
    ensures r.Success? ==> r == Success(A.Continue, p + 2)
  {
    match Consume(ts, p, Continue, ContinueKeyword)
    case Failure(e) => Failure(e)
    case Success(_, q) =>
      match Consume(ts, q, Semicolon, ContinueEnd)
      case Failure(e) => Failure(e)
      case Success(_, q') => Success(A.Continue, q')
  }

  /** `return_statement`: `return`, a value unless `;` follows at once, and `;`. */
  function ReturnStatement(ts: seq<Token>, p: nat): (r: Parsed<A.Statement>)
    requires Terminated(ts) && p < |ts|
    ensures r.Success? ==> p < r.next < |ts| && r.value.Return?
    ensures r.Success? ==> (r.value.result.None? <==> Check(ts, p + 1, Semicolon))
  {
    match Consume(ts, p, Return, ReturnKeyword)
    case Failure(e) => Failure(e)
    case Success(_, q) =>
      match ReturnValue(ts, q)
      case Failure(e) => Failure(e)
      case Success(value, q') =>
        match Consume(ts, q', Semicolon, ReturnEnd)
        case Failure(e) => Failure(e)
        case Success(_, q'') => Success(A.Return(value), q'')
  }

  /** The value of a `return`: none when `;` follows at once, else an expression. */
  function ReturnValue(ts: seq<Token>, p: nat): (r: Parsed<Option<A.Expression>>)
    requires Terminated(ts) && p < |ts|
    ensures r.Success? ==> p <= r.next < |ts| && (r.value.None? <==> Check(ts, p, Semicolon))
  {
    if Check(ts, p, Semicolon) then Success(None, p)
    else
      match Expression(ts, p)
      case Failure(e) => Failure(e)
      case Success(value, q) => Success(Some(value), q)
  }

  /** `block`: `{`, statements until `}`, and `}`. */
  function Block(ts: seq<Token>, p: nat): (r: Parsed<seq<A.Statement>>)
    requires Terminated(ts) && p < |ts|
    ensures r.Success? ==> p < r.next < |ts|
    decreases |ts| - p, 1
  {
    match Consume(ts, p, LeftBrace, BlockOpen)
    case Failure(e) => Failure(e)
    case Success(_, q) =>
      match BlockBody(ts, q, [])
      case Failure(e) => Failure(e)
      case Success(statements, q') =>
        match Consume(ts, q', RightBrace, BlockClose)
        case Failure(e) => Failure(e)
        case Success(_, q'') => Success(statements, q'')
  }

  /** The loop of `block`: statements until `}`; at the end, `statement` itself panics. */
  function BlockBody(ts: seq<Token>, p: nat, statements: seq<A.Statement>): (r: Parsed<seq<A.Statement>>)
    requires Terminated(ts) && p < |ts|
    ensures r.Success? ==> p <= r.next < |ts| && Check(ts, r.next, RightBrace)
    decreases |ts| - p, 11
  {
    if Check(ts, p, RightBrace) then Success(statements, p)
    else
      match Statement(ts, p)
      case Failure(e) => Failure(e)
      case Success(s, q) => BlockBody(ts, q, statements + [s])
  }

  /** `expression_statement`: an expression and `;`. */
  function ExpressionStatement(ts: seq<Token>, p: nat): (r: Parsed<A.Statement>)
    requires Terminated(ts) && p < |ts|
    ensures r.Success? ==> p < r.next < |ts| && r.value.ExpressionStmt?
  {
    match Expression(ts, p)
    case Failure(e) => Failure(e)
    case Success(e, q) =>
      match Consume(ts, q, Semicolon, ExpressionEnd)
      case Failure(err) => Failure(err)
      case Success(_, q') => Success(A.ExpressionStmt(e), q')
  }

  /** `parse`: statements until the end of the tokens. */
  function Program(ts: seq<Token>, p: nat, statements: seq<A.Statement>): (r: Parsed<seq<A.Statement>>)
    requires Terminated(ts) && p < |ts|
    ensures r.Success? ==> p <= r.next < |ts| && IsAtEnd(ts, r.next)
    decreases |ts| - p
  {
    if IsAtEnd(ts, p) then Success(statements, p)
    else
      match Statement(ts, p)
      case Failure(e) => Failure(e)
      case Success(s, q) => Program(ts, q, statements + [s])
  }
}
