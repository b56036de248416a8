# juice: a verified model of the interpreter core

juice is a small scripting language. A Rust program reads it with a
hand-written lexer and recursive-descent parser and runs it on a
tree-walking interpreter. This project models the core of that program in
Dafny and proves what each part promises:

* **Lexing** (`lexer.dfy`) covers the character cursor of `lexer.rs`.
  * The class `Lexer` has the source's `position`, `line` and `column`
    fields.
  * Its methods are proved to produce exactly the token `Scan` defines and
    to stop where that token ends.
  * `Lex` is proved to produce `Tokenize` of the input, which ends in
    exactly one `Eof` token.
* **Grammar** (`grammar.dfy`) is the grammar of `parser.rs`, written as
  functions from a token position to what was built plus the position
  after it.
  * The parser's panics are `Failure` results that carry the panic
    message.
  * **Parsing** (`parser.dfy`) is the class `Parser`. It has the source's
    `current` cursor, its loops and its helpers, and every method is proved
    to compute its Grammar function.
  * **GrammarFacts** (`grammar_facts.dfy`) proves what the grammar means:
    - the binary levels are left folds;
    - assignment is a right fold;
    - prefix operators nest outermost-first;
    - at most one postfix is applied;
    - trailing commas are accepted;
    - field names stay unique and the last value wins.
* **Interp** (`interp.dfy`) is the early runtime revision, `value.rs` and
  `interpreter.rs`.
  * The value operators are pure functions.
  * `Object` and `Array` are classes, so every copy of a value that holds
    one shares its table.
  * `Frame` is the parent-linked environment.
  * The class `Interpreter` evaluates expressions. Each `evaluate_*` method
    is proved against a rule. The rule fixes the evaluation order and how
    errors pass on, in terms of the outcomes of the sub-evaluations it ran.
    For an expression that runs no assignment, it also fixes the store
    afterwards.
  * `FateOf` ties each of those outcomes to its expression. It is an
    abstract evaluation that does not read the store. Where the form of an
    expression and the kinds of its operands decide the outcome, it fixes
    that outcome: a value of a known kind, or the exact error or panic
    (literals and identifiers, operator type errors, unknown types,
    receivers that are not objects, operands that are not arrays or
    numbers). Every evaluation method is proved to give an outcome FateOf
    allows. What depends on the store, on a method body or on the host is
    left open; "Left out" lists those cases.
* **Runtime** (`runtime.dfy`) is the later revision of the runtime:
  * the `object.rs` tables;
  * the `array.rs` vectors and their native methods;
  * the `env.rs` stack of frames;
  * the three callables of `method.rs`, `native_function.rs` and
    `native_method.rs`.
* **Builtins** (`builtins.dfy`) models `length`, `range` and `assert` from
  `builtin_function.rs`.
* **Shared modules:**
  * **Binding** (`binding.dfy`) is the name-binding loop shared by both
    call implementations.
  * **Utf8** (`utf8.dfy`) gives the byte length that Rust's `str::len`
    reports.
  * **Ast** and **Tokens** are the syntax trees and tokens. Their shape is
    the one `parser.rs` and `interpreter.rs` build.

Numbers are unbounded integers. A Rust panic is a separate `Panic` outcome
(in Grammar, a `Failure`), kept apart from the `Flow` values the interpreter
passes around on purpose.

## Model

| member | source | states |
|---|---|---|
| Lexing.Lexer.constructor | juice/src/lexer.rs:11-18 | the cursor starts at position 0, line 1, column 1 over the given characters |
| Lexing.Lexer.Advance | juice/src/lexer.rs:20-35 | at end of input it returns None and changes nothing; otherwise it returns the character and moves one position; a newline moves to the next line and column 1, and any other character moves one column |
| Lexing.Lexer.Peek | juice/src/lexer.rs:37-43 | None exactly at end of input, otherwise the character under the cursor |
| Lexing.SkipSpace | juice/src/lexer.rs:45-52 | the position where whitespace skipping stops is at end of input or on a non-whitespace character |
| Lexing.SkipSpaceRun | juice/src/lexer.rs:45-52 | every character skipped is whitespace |
| Lexing.Lexer.SkipWhitespace | juice/src/lexer.rs:45-52 | the loop leaves the cursor where SkipSpace says |
| Lexing.IdentifierEnd | juice/src/lexer.rs:58-63 | an identifier run stops at end of input or at a character that is neither alphanumeric nor `_` |
| Lexing.IdentifierRun | juice/src/lexer.rs:58-63 | every character the identifier loop takes is alphanumeric or `_` |
| Lexing.KeywordKind | juice/src/lexer.rs:65-81 | a word is never classified as Eof or as a string literal |
| Lexing.KeywordKinds | juice/src/lexer.rs:65-81 | a word is an Identifier exactly when it is not one of the 14 keywords, and each keyword maps to its own token kind |
| Lexing.Lexer.ReadIdentifier | juice/src/lexer.rs:54-85 | consumes up to IdentifierEnd; the token's lexeme is the first character plus the run, its kind is the keyword classification, and its column is the cursor column minus the lexeme's byte length |
| Lexing.NumberEnd | juice/src/lexer.rs:87-101 | a number run stays within the input |
| Lexing.NumberRun | juice/src/lexer.rs:91-101 | the run consists of digits with at most one `.`, and it ends at end of input or at a character that is neither a digit nor a first `.` |
| Lexing.Lexer.ReadNumber | juice/src/lexer.rs:87-110 | consumes up to NumberEnd and builds a NumberLiteral token whose column is the cursor column minus the byte length |
| Lexing.StringEnd | juice/src/lexer.rs:117-122 | a string run stays within the input |
| Lexing.StringRun | juice/src/lexer.rs:117-122 | the run stops just after the first closing quote, or at end of input when there is none |
| Lexing.Lexer.ReadString | juice/src/lexer.rs:112-125 | consumes up to StringEnd; the lexeme keeps the opening quote and everything consumed; the column is the one just after the opening quote, and the line is the one where the string ends |
| Lexing.CommentEnd | juice/src/lexer.rs:127-134 | a comment stops at end of input or on a newline, which it does not consume |
| Lexing.CommentRun | juice/src/lexer.rs:127-134 | no character the comment skips is a newline |
| Lexing.Lexer.ReadComment | juice/src/lexer.rs:127-134 | the loop leaves the cursor where CommentEnd says |
| Lexing.SkipTrivia | juice/src/lexer.rs:137-139 | skipping whitespace and `//` comments ends at end of input or on a character that starts neither |
| Lexing.TriviaAfterSpace | juice/src/lexer.rs:137 | skipping trivia first skips whitespace |
| Lexing.TriviaStart | juice/src/lexer.rs:137-139 | with no comment after the whitespace, trivia is just the whitespace |
| Lexing.TriviaComment | juice/src/lexer.rs:208-214 | after `//` the lexer skips to the newline and starts over, as the recursive `next_token` call does |
| Lexing.Scan | juice/src/lexer.rs:136-225 | one token after trivia: Eof exactly at end of input, with an empty lexeme and the final line and column; any other token has, as its lexeme, exactly the characters consumed |
| Lexing.ScanAt | juice/src/lexer.rs:139-221 | the token starting at a given character has, as its lexeme, exactly the characters consumed, and is Eof only at end of input |
| Lexing.OperatorAt | juice/src/lexer.rs:143-206 | a punctuation or operator token takes one or two characters and its lexeme is what it took |
| Lexing.OtherAt | juice/src/lexer.rs:207-220 | a string, slash, identifier, number or invalid token is never Eof and its lexeme is what it took |
| Lexing.ScanPair | juice/src/lexer.rs:159-206 | `==`, `!=`, `>=`, `<=`, `&&` and `\|\|` are taken as two-character tokens whenever the second character follows, and otherwise as the one-character token |
| Lexing.ScanLoneAmpersand | juice/src/lexer.rs:191-206 | a lone `&` or `\|` is a one-character Invalid token |
| Lexing.ScanSlash | juice/src/lexer.rs:208-216 | a `/` not followed by `/` is a Slash token |
| Lexing.ScanString | juice/src/lexer.rs:207 | a string token keeps both quotes, or runs to end of input without a closing quote |
| Lexing.ScanIdentifier | juice/src/lexer.rs:218 | an identifier token is a maximal alphanumeric/`_` run; it is an Identifier exactly when it is not a keyword |
| Lexing.ScanNumber | juice/src/lexer.rs:219 | a digit starts a NumberLiteral of digits with at most one `.`, and the literal is maximal |
| Lexing.ScanUnknown | juice/src/lexer.rs:220 | any other character is a single Invalid token |
| Lexing.Locate | juice/src/lexer.rs:20-35 | the line and column the cursor has after reading a prefix: line at least 1, column between 1 and the prefix length plus 1 |
| Lexing.LexemeOnOneLine | juice/src/lexer.rs:143-220 | an ASCII token other than a string contains no newline |
| Lexing.OperatorOnOneLine | juice/src/lexer.rs:143-206 | operator tokens contain no newline |
| Lexing.OtherOnOneLine | juice/src/lexer.rs:218-220 | ASCII identifier, number and invalid tokens contain no newline |
| Lexing.WordOnOneLine | juice/src/lexer.rs:218 | an ASCII identifier contains no newline |
| Lexing.NumberOnOneLine | juice/src/lexer.rs:219 | a number contains no newline |
| Lexing.IdentifierOnOneLine | juice/src/lexer.rs:58-63 | an ASCII identifier run contains no newline |
| Lexing.ScanPlace | juice/src/lexer.rs:143-220 | for ASCII tokens other than strings, the token's line and column are where its first character is |
| Lexing.AsciiColumn | juice/src/lexer.rs:83-84 | for ASCII tokens other than strings, the reported column is the column after the token minus its length |
| Lexing.OtherColumn | juice/src/lexer.rs:103-108 | the same column rule for identifier, number and invalid tokens |
| Lexing.Lexer.NextToken | juice/src/lexer.rs:136-225 | returns Scan's token from the old position and moves the cursor to its end |
| Lexing.Lexer.TokenAfterSpace | juice/src/lexer.rs:139-224 | after whitespace, the token and end position are Scan's |
| Lexing.Lexer.EndOfInput | juice/src/lexer.rs:222-224 | at end of input the token is Eof at the cursor's line and column |
| Lexing.Lexer.AfterComment | juice/src/lexer.rs:210-214 | after `//`, skipping the comment and reading on gives Scan's token |
| Lexing.Lexer.ReadToken | juice/src/lexer.rs:139-221 | the token that starts with the character just advanced over is ScanAt's |
| Lexing.Lexer.ReadOperator | juice/src/lexer.rs:143-206 | punctuation and operator characters give OperatorAt's token |
| Lexing.Lexer.ReadOther | juice/src/lexer.rs:207-220 | every other character gives OtherAt's token |
| Lexing.Lexer.ReadWord | juice/src/lexer.rs:218-219 | a letter, `_` or digit gives OtherAt's identifier or number token |
| Lexing.TokenizeStep | juice/src/lexer.rs:229-238 | the token list is the scanned token, followed by the rest unless that token was Eof |
| Lexing.TokenizeEndsWithEof | juice/src/lexer.rs:227-240 | the token list is non-empty, its last token is Eof and no earlier token is |
| Lexing.Lexer.Lex | juice/src/lexer.rs:227-240 | returns Tokenize of the input from the old position and ends at end of input |
| Utf8.Utf8Width | juice/src/lexer.rs:83 | a character takes 1 to 4 bytes, and takes 1 exactly when it is ASCII |
| Utf8.Utf8Length | juice/src/lexer.rs:83 | the byte length of a string lies between its character count and four times that count |
| Utf8.Utf8LengthAscii | juice/src/lexer.rs:83 | the byte length equals the character count exactly when every character is ASCII |
| Utf8.Utf8LengthAppend | juice/src/lexer.rs:83 | byte lengths add up under concatenation |
| Grammar.Advance | juice/src/parser.rs:655-672 | moves one token unless at Eof and returns the token before the new cursor; at Eof it stays put; it fails only at Eof in position 0, where `previous` underflows |
| Grammar.Consume | juice/src/parser.rs:634-640 | succeeds exactly when the current token has the kind, then returns it and moves one token; otherwise it fails with its message |
| Grammar.ConsumeIdentifier | juice/src/parser.rs:642-645 | succeeds exactly on an Identifier and returns its lexeme |
| Grammar.TypeAnnotation | juice/src/parser.rs:153-166 | without a `:` there is no annotation and nothing is consumed; with one, a success holds at least one type name |
| Grammar.TypeList | juice/src/parser.rs:156-163 | each `+`-separated name adds one entry |
| Grammar.LevelOperator | juice/src/parser.rs:291-417 | only the six binary levels have operators |
| Grammar.BinaryTail | juice/src/parser.rs:291-417 | a level's loop stops at a token that is not one of its operators |
| Grammar.Applied | juice/src/parser.rs:430-437 | wrapping prefix operators around the operand keeps its success and end position |
| Grammar.Call | juice/src/parser.rs:445-455 | a call wraps the given callee |
| Grammar.Member | juice/src/parser.rs:456-476 | `.name` gives a method or field access on the given receiver |
| Grammar.Index | juice/src/parser.rs:477-482 | `[e]` gives an array access on the given array |
| Grammar.Atom | juice/src/parser.rs:497-507 | the literal built is the one for the token just advanced over; a failure after the first token is the "Expected expression" panic |
| Grammar.Literal | juice/src/parser.rs:499-506 | exactly identifiers, strings, numbers, true, false and null are literals |
| Grammar.ObjectConstruction | juice/src/parser.rs:516-544 | builds a named object construction |
| Grammar.AnonymousObjectConstruction | juice/src/parser.rs:546-572 | builds an object construction without a type name |
| Grammar.FieldEntry | juice/src/parser.rs:523-526 | a field starts with an Identifier and is named by it |
| Grammar.Insert | juice/src/parser.rs:527 | inserting a field keeps the field count or grows it by one |
| Grammar.ArrayConstruction | juice/src/parser.rs:574-596 | builds an array construction |
| Grammar.ElseBranch | juice/src/parser.rs:220-226 | an else branch is present exactly when the next token is `else` |
| Grammar.BreakStatement | juice/src/parser.rs:229-233 | succeeds exactly on `break ;` and consumes those two tokens |
| Grammar.ContinueStatement | juice/src/parser.rs:235-239 | succeeds exactly on `continue ;` and consumes those two tokens |
| Grammar.ReturnStatement | juice/src/parser.rs:241-251 | the return has no value exactly when `;` follows the keyword |
| Grammar.SignatureRest | juice/src/parser.rs:115-130 | the signature built carries the method name already read |
| Grammar.ObjectBody | juice/src/parser.rs:48-61 | the declaration built is an object declaration with the name already read |
| Grammar.TraitBody | juice/src/parser.rs:69-83 | the declaration built is a trait declaration with the name already read |
| Grammar.Initializer | juice/src/parser.rs:91-103 | the statement built is a variable declaration with the name already read |
| Grammar.ForRest | juice/src/parser.rs:194-206 | the statement built is a for loop over the variable already read |
| Grammar.ReturnValue | juice/src/parser.rs:243-250 | the value is absent exactly when `;` follows |
| Grammar.Methods | juice/src/parser.rs:49-52 | the method loop stops on `}` or at Eof |
| Grammar.Signatures | juice/src/parser.rs:69-72 | the signature loop stops on `}` or at Eof |
| Grammar.BlockBody | juice/src/parser.rs:256-260 | the block loop stops on `}` |
| Grammar.Program | juice/src/parser.rs:18-26 | a parsed program ends at Eof |
| Parsing.Parser.constructor | juice/src/parser.rs:14-16 | the cursor starts on the first token |
| Parsing.Parser.Advance | juice/src/parser.rs:655-660 | computes Grammar.Advance and moves the cursor to its end |
| Parsing.Parser.MatchToken | juice/src/parser.rs:612-619 | matches exactly when `check` holds, and only then moves one token |
| Parsing.Parser.MatchOperator | juice/src/parser.rs:293-296 | matches one operator of the given level and moves past it, or moves nothing |
| Parsing.Parser.MatchTokenSequenceNoAdvance | juice/src/parser.rs:621-632 | reports whether the kinds follow in order, and leaves the cursor where it was |
| Parsing.Parser.Consume | juice/src/parser.rs:634-640 | computes Grammar.Consume and moves past the token on success |
| Parsing.Parser.ConsumeIdentifier | juice/src/parser.rs:642-645 | computes Grammar.ConsumeIdentifier |
| Parsing.Parser.Parse | juice/src/parser.rs:18-26 | collects statements until Eof, as Grammar.Program |
| Parsing.Parser.Statement | juice/src/parser.rs:28-41 | dispatches on the current token, as Grammar.Statement |
| Parsing.Parser.ObjectDeclaration | juice/src/parser.rs:43-62 | `object Name [: types] { methods }`, as Grammar.ObjectDeclaration |
| Parsing.Parser.TraitDeclaration | juice/src/parser.rs:64-84 | `trait Name [: types] { signatures; }`, as Grammar.TraitDeclaration |
| Parsing.Parser.VarDeclaration | juice/src/parser.rs:86-104 | `var name [: types] = e ;`, as Grammar.VarDeclaration |
| Parsing.Parser.MethodDeclaration | juice/src/parser.rs:106-111 | a signature followed by a block, as Grammar.MethodDeclaration |
| Parsing.Parser.MethodSignature | juice/src/parser.rs:113-131 | name, parameters and optional annotation, as Grammar.MethodSignature |
| Parsing.Parser.ParameterList | juice/src/parser.rs:133-151 | the parenthesised, comma-separated parameters, as Grammar.ParameterList |
| Parsing.Parser.Parameter | juice/src/parser.rs:137-146 | one parameter name with its optional annotation, as Grammar.Parameter |
| Parsing.Parser.TypeAnnotation | juice/src/parser.rs:153-166 | an optional `:` followed by `+`-separated type names, as Grammar.TypeAnnotation |
| Parsing.Parser.TypeIdentifier | juice/src/parser.rs:168-177 | a dotted name joined with `.`, as Grammar.TypeIdentifier |
| Parsing.Parser.WhileStatement | juice/src/parser.rs:179-187 | as Grammar.WhileStatement |
| Parsing.Parser.Condition | juice/src/parser.rs:181-184 | a parenthesised condition, as Grammar.Condition |
| Parsing.Parser.ForStatement | juice/src/parser.rs:189-207 | `for (var x in e) block`, as Grammar.ForStatement |
| Parsing.Parser.IfStatement | juice/src/parser.rs:209-227 | as Grammar.IfStatement |
| Parsing.Parser.IfBranches | juice/src/parser.rs:214-226 | the then block and an optional else block, as Grammar.IfBranches |
| Parsing.Parser.ElseBranch | juice/src/parser.rs:217-226 | the else part, as Grammar.ElseBranch |
| Parsing.Parser.BreakStatement | juice/src/parser.rs:229-233 | as Grammar.BreakStatement |
| Parsing.Parser.ContinueStatement | juice/src/parser.rs:235-239 | as Grammar.ContinueStatement |
| Parsing.Parser.ReturnStatement | juice/src/parser.rs:241-251 | as Grammar.ReturnStatement |
| Parsing.Parser.Block | juice/src/parser.rs:253-265 | `{ statements }`, as Grammar.Block |
| Parsing.Parser.ExpressionStatement | juice/src/parser.rs:267-271 | an expression followed by `;`, as Grammar.ExpressionStatement |
| Parsing.Parser.Expression | juice/src/parser.rs:273-275 | as Grammar.Expression |
| Parsing.Parser.Assignment | juice/src/parser.rs:277-289 | as Grammar.Assignment |
| Parsing.Parser.Operand | juice/src/parser.rs:291-417 | the next tighter level, as Grammar.Operand |
| Parsing.Parser.BinaryLevel | juice/src/parser.rs:291-417 | the six left-associative loops, as Grammar.BinaryLevel |
| Parsing.Parser.Unary | juice/src/parser.rs:419-440 | as Grammar.Unary |
| Parsing.Parser.Prefixes | juice/src/parser.rs:420-427 | collects the `!`/`-` run in order and moves past it, as Grammar.Prefixes |
| Parsing.Parser.ApplyUnary | juice/src/parser.rs:431-437 | the reversed loop wraps the operand exactly as Grammar.Wrap does |
| Parsing.Parser.Postfix | juice/src/parser.rs:442-485 | as Grammar.Postfix |
| Parsing.Parser.Suffix | juice/src/parser.rs:445-482 | the single optional call, access or index, as Grammar.Suffix |
| Parsing.Parser.Call | juice/src/parser.rs:445-455 | as Grammar.Call |
| Parsing.Parser.Member | juice/src/parser.rs:456-476 | as Grammar.Member |
| Parsing.Parser.Index | juice/src/parser.rs:477-482 | as Grammar.Index |
| Parsing.Parser.ArgumentList | juice/src/parser.rs:598-609 | one or more comma-separated expressions, as Grammar.ArgumentList |
| Parsing.Parser.Primary | juice/src/parser.rs:487-508 | as Grammar.Primary |
| Parsing.Parser.Atom | juice/src/parser.rs:497-507 | as Grammar.Atom |
| Parsing.Parser.Group | juice/src/parser.rs:510-514 | as Grammar.Group |
| Parsing.Parser.ObjectConstruction | juice/src/parser.rs:516-544 | as Grammar.ObjectConstruction |
| Parsing.Parser.AnonymousObjectConstruction | juice/src/parser.rs:546-572 | as Grammar.AnonymousObjectConstruction |
| Parsing.Parser.FieldList | juice/src/parser.rs:547-568 | the fields and the closing `}`, as Grammar.FieldList |
| Parsing.Parser.Fields | juice/src/parser.rs:547-564 | the field loop with its comma and trailing-comma exits, as Grammar.Fields |
| Parsing.Parser.FieldEntry | juice/src/parser.rs:548-551 | `name = e`, as Grammar.FieldEntry |
| Parsing.Parser.ArrayConstruction | juice/src/parser.rs:574-596 | as Grammar.ArrayConstruction |
| Parsing.Parser.Elements | juice/src/parser.rs:577-590 | the element loop with its trailing-comma exit, as Grammar.Elements |
| GrammarFacts.WrapLast | juice/src/parser.rs:431-437 | wrapping from the last operator to the first, as the reversed loop does, builds the same tree as Wrap: the last operator collected is the innermost Unary node |
| GrammarFacts.Chain | juice/src/parser.rs:291-417 | the operator/operand pairs of one level end at a token that is not one of its operators |
| GrammarFacts.FoldLeftLast | juice/src/parser.rs:296-301 | folding one more pair puts the earlier result on the left of a new Binary node |
| GrammarFacts.TailIsFold | juice/src/parser.rs:291-417 | every binary level is the left fold of its operator/operand chain, so each level is left-associative |
| GrammarFacts.LevelsDisjoint | juice/src/parser.rs:291-417 | no token kind is an operator of two levels |
| GrammarFacts.Targets | juice/src/parser.rs:277-289 | the `=`-separated operands of an assignment chain are non-empty |
| GrammarFacts.AssignmentIsFold | juice/src/parser.rs:277-289 | assignment is the right fold of its operands, so it is right-associative and any parsed expression can be a target |
| GrammarFacts.UnaryOutermost | juice/src/parser.rs:419-440 | in a run of prefix operators the first becomes the outermost Unary node; with none, unary is postfix |
| GrammarFacts.AppliedCons | juice/src/parser.rs:431-437 | applying a run of operators is applying its first to the result of the rest |
| GrammarFacts.PostfixOnce | juice/src/parser.rs:442-485 | a postfix expression is its primary with at most one call, access or index around it |
| GrammarFacts.ExpressionStart | juice/src/parser.rs:487-507 | an expression that parses starts at Eof or with a token that can start one |
| GrammarFacts.LevelStart | juice/src/parser.rs:291-417 | the same for every binary level |
| GrammarFacts.PrimaryStart | juice/src/parser.rs:487-507 | the same for postfix expressions |
| GrammarFacts.ArrayTrailingComma | juice/src/parser.rs:574-596 | `[e,]` parses as the one-element array `[e]` |
| GrammarFacts.ObjectTrailingComma | juice/src/parser.rs:546-572 | `{name = e,}` parses as the one-field list |
| GrammarFacts.MethodCallNeedsArgument | juice/src/parser.rs:461-465 | `.name()` always fails, because the method-call branch demands at least one argument |
| GrammarFacts.InsertLookup | juice/src/parser.rs:527 | after an insert, the name maps to the new value and every other name is unchanged, so a repeated field keeps its last value |
| GrammarFacts.InsertNames | juice/src/parser.rs:527 | an insert adds exactly the inserted name |
| GrammarFacts.InsertUnique | juice/src/parser.rs:527 | insertion keeps field names unique |
| GrammarFacts.FieldListUnique | juice/src/parser.rs:546-572 | a parsed field list has no repeated name, as a HashMap has none |
| GrammarFacts.FieldsUnique | juice/src/parser.rs:547-564 | the field loop keeps names unique |
| GrammarFacts.AfterEntryUnique | juice/src/parser.rs:556-563 | the loop's exit after an entry keeps names unique |
| GrammarFacts.IdentifierBrace | juice/src/parser.rs:488-489 | an Identifier directly followed by `{` is always parsed as object construction |
| GrammarFacts.TwoTypes | juice/src/parser.rs:153-166 | `: A + B` gives the two entries A and B |
| GrammarFacts.DottedType | juice/src/parser.rs:168-177 | `A.B` gives the single name `A.B` |
| Interp.KindOf | juice/src/juice/value.rs:12-22 | each kind tag corresponds to its value variant |
| Interp.AsNumber | juice/src/juice/value.rs:32-39 | succeeds exactly on a Number and returns it, otherwise the number-operation error |
| Interp.AsString | juice/src/juice/value.rs:41-48 | succeeds exactly on a String, otherwise the string-operation error |
| Interp.AsBool | juice/src/juice/value.rs:50-57 | succeeds exactly on a Bool, otherwise the boolean-operation error |
| Interp.AsObject | juice/src/juice/value.rs:59-66 | succeeds exactly on an Object, otherwise the object-operation error |
| Interp.AsArray | juice/src/juice/value.rs:68-75 | succeeds exactly on an Array, otherwise the array-operation error |
| Interp.AsMethod | juice/src/juice/value.rs:77-84 | succeeds exactly on a Method, otherwise the method-operation error |
| Interp.IsTruthy | juice/src/juice/value.rs:100-107 | truthiness is defined for booleans only, and is the boolean itself |
| Interp.And | juice/src/juice/value.rs:109-111 | errors when the left operand is not Bool; a false left operand decides without checking the right; otherwise the right must be Bool; the result is the conjunction |
| Interp.Or | juice/src/juice/value.rs:113-115 | the same with a true left operand deciding; the result is the disjunction |
| Interp.Not | juice/src/juice/value.rs:117-119 | returns its Bool operand unchanged, without negating it, and errors on any other kind |
| Interp.Neg | juice/src/juice/value.rs:121-128 | only Numbers; the result is the additive inverse |
| Interp.Add | juice/src/juice/value.rs:130-138 | Number plus Number is the sum; String plus String is the concatenation; any other pair is the add error |
| Interp.Sub | juice/src/juice/value.rs:140-147 | only Numbers; the result plus the right operand is the left |
| Interp.RepeatAdd | juice/src/juice/value.rs:152 | repeating a string a times then b times is repeating it a + b times |
| Interp.RepeatLength | juice/src/juice/value.rs:152 | a repetition is as long as the string times a non-negative count, and empty for a count at or below zero |
| Interp.Mul | juice/src/juice/value.rs:149-157 | Number times Number is the product; String times Number is the repetition; other pairs are the multiplication error |
| Interp.Remainder | juice/src/juice/value.rs:177 | quotient times divisor plus remainder is the dividend |
| Interp.Div | juice/src/juice/value.rs:159-172 | a zero divisor is "Division by zero" and never a number; other Numbers give the quotient; non-Numbers give the division error |
| Interp.Rem | juice/src/juice/value.rs:174-181 | only Numbers; a non-zero divisor gives the truncating remainder |
| Interp.StringOrderTotal | juice/src/juice/value.rs:191-229 | the string order is total, antisymmetric and irreflexive |
| Interp.StringLessIrreflexive | juice/src/juice/value.rs:191-199 | no string is less than itself |
| Interp.Lt | juice/src/juice/value.rs:191-199 | succeeds only on two Numbers or two Strings, with numeric or lexicographic order; otherwise the less-than error |
| Interp.Gt | juice/src/juice/value.rs:201-209 | the same for greater-than |
| Interp.Le | juice/src/juice/value.rs:211-219 | the same for less-or-equal |
| Interp.Ge | juice/src/juice/value.rs:221-229 | the same for greater-or-equal |
| Interp.EqualsSymmetric | juice/src/juice/value.rs:183-185 | derived structural equality is symmetric |
| Interp.ObjectsEqualSymmetric | juice/src/juice/value.rs:232-236 | object comparison is symmetric |
| Interp.MethodsEqualSymmetric | juice/src/juice/value.rs:353-357 | method comparison is symmetric |
| Interp.MethodTablesEqualSymmetric | juice/src/juice/value.rs:234 | method-table comparison is symmetric |
| Interp.FieldTablesEqualSymmetric | juice/src/juice/value.rs:235 | field-table comparison is symmetric |
| Interp.ElementsEqualSymmetric | juice/src/juice/value.rs:281 | element-vector comparison is symmetric |
| Interp.EqualsReflexive | juice/src/juice/value.rs:183-185 | a value never compares unequal to itself |
| Interp.ObjectsEqualReflexive | juice/src/juice/value.rs:232-236 | an object never compares unequal to itself |
| Interp.ElementsEqualReflexive | juice/src/juice/value.rs:281 | an element vector never compares unequal to itself |
| Interp.Eq | juice/src/juice/value.rs:183-185 | never a Flow error; the result is the structural comparison, or a stack-overflow panic when nesting exceeds the depth |
| Interp.NeNegatesEq | juice/src/juice/value.rs:183-189 | `ne` never fails, succeeds exactly when `eq` does, and is its negation |
| Interp.EqSymmetric | juice/src/juice/value.rs:183-189 | `eq` and `ne` do not depend on operand order |
| Interp.BinaryTyping | juice/src/juice/interpreter.rs:170-184 | a binary operator fails exactly on the operand kinds its `value.rs` function rejects |
| Interp.ArithmeticTyping | juice/src/juice/value.rs:130-181 | the arithmetic half of BinaryTyping |
| Interp.ComparisonTyping | juice/src/juice/value.rs:191-229 | the comparison half of BinaryTyping |
| Interp.LogicTyping | juice/src/juice/value.rs:109-115 | the logical half of BinaryTyping |
| Interp.BinaryErrors | juice/src/juice/interpreter.rs:170-184 | a binary operator's failure is always a Flow Error |
| Interp.Object.constructor | juice/src/juice/value.rs:239-244 | both tables start empty |
| Interp.Object.Instantiate | juice/src/juice/value.rs:246-252 | a fresh object with a copy of the method table and no fields, so later writes to either object leave the other alone |
| Interp.Object.GetMethod | juice/src/juice/value.rs:254-259 | returns the method exactly when it is present, otherwise "Method {name} not found" |
| Interp.Object.SetMethod | juice/src/juice/value.rs:261-264 | inserts or overwrites one method, returns Void, and leaves the fields and every other method unchanged |
| Interp.Object.GetValue | juice/src/juice/value.rs:266-271 | returns the field exactly when it is present, otherwise "Field {name} not found" |
| Interp.Object.SetValue | juice/src/juice/value.rs:273-276 | inserts or overwrites one field, returns Void, makes a following GetValue return the value, and leaves the methods and other fields unchanged |
| Interp.Array.constructor | juice/src/juice/interpreter.rs:290-292 | the array holds the given elements |
| Interp.Array.CheckIndex | juice/src/juice/value.rs:285-290 | accepts exactly 0 ≤ index < length, otherwise "Index out of bounds" |
| Interp.Array.GetValue | juice/src/juice/value.rs:292-295 | the element at a valid index, otherwise the index error |
| Interp.Array.SetValue | juice/src/juice/value.rs:297-301 | replaces exactly the element at a valid index; out of range it fails and changes nothing |
| Interp.Array.Length | juice/src/juice/value.rs:303-305 | the element count |
| Interp.Array.Add | juice/src/juice/value.rs:307-310 | appends the value at the end |
| Interp.Array.Insert | juice/src/juice/value.rs:312-316 | at a valid index the value lands there and later elements shift right; index == length is rejected |
| Interp.Array.RemoveAt | juice/src/juice/value.rs:318-322 | deletes exactly the element at a valid index; out of range it fails and changes nothing |
| Interp.Position | juice/src/juice/value.rs:325 | the first index equal to the value, or None when all differ, or a stack-overflow panic |
| Interp.Array.Remove | juice/src/juice/value.rs:324-329 | deletes only the first equal element, and is a no-op when none is equal |
| Interp.Array.Clear | juice/src/juice/value.rs:331-334 | leaves no elements |
| Interp.FirstHolder | juice/src/juice/interpreter.rs:26-50 | the innermost frame that holds the name, or None when no frame does |
| Interp.KeysOf | juice/src/juice/interpreter.rs:5-8 | the names bound by each frame of the chain |
| Interp.Frame.constructor | juice/src/juice/interpreter.rs:11-16 | an empty frame with the given parent |
| Interp.Frame.ScopeFacts | juice/src/juice/interpreter.rs:5-8 | the frame chain is a finite list of ancestors |
| Interp.Frame.Define | juice/src/juice/interpreter.rs:18-24 | panics "Variable {name} already defined" and changes nothing when this frame already has the name; otherwise it binds the name in this frame, shadowing any parent binding, and a following Get finds the value |
| Interp.Frame.DefineAll | juice/src/juice/value.rs:364-370 | binds `this` and the parameters in order, and panics at the first repeated name |
| Interp.Frame.Get | juice/src/juice/interpreter.rs:26-36 | the binding of the innermost frame that has the name; a panic when none does |
| Interp.Frame.Assign | juice/src/juice/interpreter.rs:38-50 | the nearest holder now binds the value, and every other binding of every frame is as it was; a panic, with every frame unchanged, when none holds it |
| Interp.Frame.Set | juice/src/juice/interpreter.rs:38-50 | overwrites only the nearest frame that holds the name, never creates a binding, and changes nothing when the name is absent everywhere |
| Interp.Frame.SetOuter | juice/src/juice/interpreter.rs:44-48 | the walk into the parent chain keeps the same promise |
| Interp.Finish | juice/src/juice/value.rs:377-387 | Return(v) becomes v; Break and Continue become "outside of loop" errors; an Error is unchanged; a normal result is kept |
| Interp.RunOutcomes | juice/src/juice/interpreter.rs:66-71 | statements run in order: the first outcome that is not Ok is the result, and otherwise Null |
| Interp.CallValues | juice/src/juice/value.rs:364-370 | the receiver, then each argument that has a parameter |
| Interp.CallOutcome | juice/src/juice/value.rs:360-388 | a repeated bound name panics; otherwise the body's outcome mapped by Finish |
| Interp.CallOutcomeShape | juice/src/juice/value.rs:360-388 | no Flow other than Error leaves a call; with every statement unimplemented, a call succeeds, with Null, exactly for an empty body |
| Interp.CallOutcomePlain | juice/src/juice/value.rs:360-388 | a call's result holds no object or array |
| Interp.OperatorFateSound | juice/src/juice/interpreter.rs:170-184 | on every pair of values, the operator's outcome is one OperatorFate allows for their kinds: the operator's error for kinds it rejects, and otherwise a value of the stated kind (division and `==`/`!=` are left open) |
| Interp.UnaryFateSound | juice/src/juice/interpreter.rs:190-193 | on every value, `neg` and `not` give an outcome UnaryFate allows for its kind |
| Interp.Follow | juice/src/juice/interpreter.rs:148-152 | one more operand of a list: an Ok value lets the run go on, and any other outcome is where the run halts, with that outcome |
| Interp.Called | juice/src/juice/interpreter.rs:146-158 | a callee and arguments that meet their fates make a call that meets the call's FateOf |
| Interp.Dispatched | juice/src/juice/interpreter.rs:154-158 | after the argument list runs, the outcome is one Calling allows for the callee's kind |
| Interp.MemberCalled | juice/src/juice/interpreter.rs:202-208 | a method access on an object whose arguments meet their fates meets the access's FateOf |
| Interp.FieldAssigned | juice/src/juice/interpreter.rs:241-245 | a store into a field gives the receiver's error, the object error, or the stored value, as Receiving allows |
| Interp.Assigned | juice/src/juice/interpreter.rs:235-253 | a value that meets its fate, followed by a store that meets Storing, makes an assignment that meets its FateOf |
| Interp.UnimplementedFirst | juice/src/juice/interpreter.rs:133-137 | an expression whose first evaluated leaf is a literal or an identifier has, as its FateOf, the not-yet-implemented panic |
| Interp.SumOfLiteralsPanics | juice/src/juice/interpreter.rs:135 | `1 + 2` stops with the not-yet-implemented panic whatever types are declared, since its left literal is evaluated first |
| Interp.NestedEmptyArray | juice/src/juice/interpreter.rs:283-293 | `[[]]` gives an array value whatever types are declared |
| Interp.UnknownTypeFirst | juice/src/juice/interpreter.rs:261-272 | a construction of an undeclared type is "Type {name} not defined" before any field is evaluated |
| Interp.Interpreter.constructor | juice/src/juice/interpreter.rs:59-64 | a fresh root frame and no prototypes |
| Interp.Interpreter.Interpret | juice/src/juice/interpreter.rs:66-71 | computes RunBlock of the block |
| Interp.Interpreter.ExecuteStatement | juice/src/juice/interpreter.rs:73-106 | every statement is the not-yet-implemented panic |
| Interp.Interpreter.Evaluate | juice/src/juice/interpreter.rs:108-139 | dispatches on the expression kind; literals and identifiers are the not-yet-implemented panic; the outcome and sub-evaluations satisfy the kind's rule, and the store only grows; an expression that holds no assignment leaves every binding, field and element that existed as it was; the outcome is one that FateOf allows for the expression: the value kind or error fixed by the expression's form and its operands' kinds, which stops at the first unimplemented leaf and passes on the first failing operand's error. Every sub-evaluation meets its own expression's FateOf |
| Interp.Interpreter.Operand | juice/src/juice/interpreter.rs:108-139 | a sub-expression's outcome meets its FateOf; when the first leaf it evaluates is a literal or an identifier, the outcome is the not-yet-implemented panic |
| Interp.Interpreter.EvaluateAll | juice/src/juice/interpreter.rs:148-152 | evaluates in order and stops at the first result that is not Ok; when no argument holds an assignment, no binding, field or element that existed changes; every element meets its FateOf, and the list halts or completes as RunFrom says: it halts at the first operand whose fate is an error, with that error, and completes when every operand's fate is a value |
| Interp.Interpreter.EvaluateCall | juice/src/juice/interpreter.rs:141-159 | the callee first, then the arguments in order; a callee that is neither Method nor NativeMethod gives "Can only call methods on objects"; an expression that holds no assignment leaves every binding, field and element that existed as it was; the outcome, and every sub-evaluation's outcome, is one FateOf allows for its expression |
| Interp.Interpreter.CallWith | juice/src/juice/interpreter.rs:148-158 | a failed callee is passed on before any argument is evaluated; otherwise the arguments in order, then the call by the callee's value; with no assignment among the arguments nothing that existed changes; when the callee's outcome meets its FateOf, so do the call's outcome and every sub-evaluation |
| Interp.Interpreter.Apply | juice/src/juice/interpreter.rs:148-158 | after all arguments succeed, the callee's value decides what runs; the call itself writes nothing, so with no assignment among the arguments nothing that existed changes; every argument meets its FateOf and the list runs as RunFrom says; the outcome is one Calling allows, so a callee that is neither kind of method gives the call error once the arguments complete |
| Interp.Interpreter.EvaluateBinary | juice/src/juice/interpreter.rs:161-185 | the left operand, then the right, then the operator's function; a failure of either operand is passed on; an expression that holds no assignment leaves every binding, field and element that existed as it was; the outcome, and every sub-evaluation's outcome, is one FateOf allows for its expression; OperatorFate fixes the operator's error or result kind |
| Interp.Interpreter.BinaryWithin | juice/src/juice/interpreter.rs:170-184 | an operator's result holds no object or array |
| Interp.Interpreter.EvaluateUnary | juice/src/juice/interpreter.rs:187-194 | the operand, then `neg` or `not`; an expression that holds no assignment leaves every binding, field and element that existed as it was; the outcome, and every sub-evaluation's outcome, is one FateOf allows for its expression |
| Interp.Interpreter.EvaluateMethodAccess | juice/src/juice/interpreter.rs:196-209 | the receiver must be an Object, and the method is looked up before any argument is evaluated; an expression that holds no assignment leaves every binding, field and element that existed as it was; the outcome, and every sub-evaluation's outcome, is one FateOf allows for its expression |
| Interp.Interpreter.CallMember | juice/src/juice/interpreter.rs:202-208 | the receiver's value must be an Object holding the method, both checked before any argument is evaluated; then the arguments and the call; with no assignment among the arguments nothing that existed changes; when the receiver's outcome meets its FateOf, so do the outcome and every sub-evaluation |
| Interp.Interpreter.Invoke | juice/src/juice/interpreter.rs:204-208 | the arguments in order, then the method call; with no assignment among the arguments nothing that existed changes; every argument meets its FateOf and the list halts or completes as RunFrom says |
| Interp.Interpreter.EvaluateFieldAccess | juice/src/juice/interpreter.rs:211-218 | the receiver must be an Object; the result is its field lookup; an expression that holds no assignment leaves every binding, field and element that existed as it was; the outcome, and every sub-evaluation's outcome, is one FateOf allows for its expression |
| Interp.Interpreter.EvaluateArrayAccess | juice/src/juice/interpreter.rs:220-228 | the array, then the index as a Number, then the bounds-checked element; an expression that holds no assignment leaves every binding, field and element that existed as it was; the outcome, and every sub-evaluation's outcome, is one FateOf allows for its expression |
| Interp.Interpreter.EvaluateAssignment | juice/src/juice/interpreter.rs:230-254 | the right-hand side first, then the target, which must be an identifier, field access or array access ("Invalid assignment target" otherwise); the result is the assigned value; when no operand holds an assignment, the one store is the only change: the nearest binding of the name, the field of the receiver object, or the element at a number index in range; a value that fails changes nothing; the outcome, and every sub-evaluation's outcome, is one FateOf allows for its expression |
| Interp.Interpreter.Store | juice/src/juice/interpreter.rs:236-253 | the write for each kind of target; when the target's operands hold no assignment, that one binding, field or element is the only change; the outcome is one Storing allows for the target and the value's kind, and every target operand meets its FateOf |
| Interp.Interpreter.StoreThrough | juice/src/juice/interpreter.rs:241-252 | field and element targets, and "Invalid assignment target" for any other; the same single-change promise; the outcome is one Storing allows for the target and the value's kind, and every target operand meets its FateOf |
| Interp.Interpreter.StoreIntoVariable | juice/src/juice/interpreter.rs:237-240 | an identifier target: the rule for a variable store, the nearest binding as the only change, and an outcome Storing allows |
| Interp.Interpreter.AssignVariable | juice/src/juice/interpreter.rs:237-240 | sets the nearest binding and yields the value; every other binding of every frame, and every object and array, is as it was; a name bound nowhere is the panic with nothing changed |
| Interp.Interpreter.AssignField | juice/src/juice/interpreter.rs:241-245 | the receiver, then the write through the shared object, so every holder of it sees the value; with no assignment in the receiver, that field is the only change; the outcome is one Receiving allows: the receiver's own error, the object error for a receiver of another kind, or a value of the assigned value's kind |
| Interp.Interpreter.StoreIntoObject | juice/src/juice/interpreter.rs:242-244 | a failed receiver is passed on and a non-object is the object error, both with nothing changed; an object takes the value under the member, and nothing else changes |
| Interp.Interpreter.PutField | juice/src/juice/interpreter.rs:243 | the field table becomes the old one with the member set to the value, so the field reads back the value; the methods are unchanged |
| Interp.Interpreter.AssignElement | juice/src/juice/interpreter.rs:246-251 | the array, then the index, then the bounds-checked write through the shared array; with no assignment in the array or index operands, that one element is the only change; the outcome is one Indexing allows for the array and index fates, and both operands meet their FateOf |
| Interp.Interpreter.StoreIntoArray | juice/src/juice/interpreter.rs:247-251 | a failed array operand is passed on and a non-array is the array error, both before the index is evaluated; then the index and the write; when the array operand's outcome meets its FateOf, the outcome is one Indexing allows and the index meets its FateOf |
| Interp.Interpreter.StoreElement | juice/src/juice/interpreter.rs:248-250 | a Number index in range is written and the value returned; a non-Number is the number error, and out of range is the index error; with no assignment in the index, the elements become the old ones with that one element replaced, and nothing else changes; the index's outcome meets its FateOf |
| Interp.Interpreter.WriteElement | juice/src/juice/interpreter.rs:248-250 | a failed index is passed on, a non-Number is the number error, and out of range is the index error, each with nothing changed; a number in range replaces that element and nothing else |
| Interp.Interpreter.EvaluateObjectConstruction | juice/src/juice/interpreter.rs:256-281 | an unknown type name is "Type {name} not defined"; otherwise the result is a fresh object; an expression that holds no assignment leaves every binding, field and element that existed as it was; the outcome, and every sub-evaluation's outcome, is one FateOf allows for its expression |
| Interp.Interpreter.Construct | juice/src/juice/interpreter.rs:261-280 | starts from the prototype's instance (its methods, no fields) or an empty object, sets the fields in order, stops at the first failing value, and yields the fresh object; an expression that holds no assignment leaves every binding, field and element that existed as it was; the outcome, and every sub-evaluation's outcome, is one FateOf allows for its expression |
| Interp.Interpreter.Populate | juice/src/juice/interpreter.rs:265-269 | the field values in order, each set on the new object; after all succeed, the object, with exactly those bindings, is recorded as reachable and is the result; a failing value is passed on; every field value meets its FateOf and the loop halts or completes as RunFrom says |
| Interp.Interpreter.Adopt | juice/src/juice/interpreter.rs:269 | a new object joins the reachable store |
| Interp.Interpreter.Blank | juice/src/juice/interpreter.rs:264 | a fresh object whose methods are the prototype's, or none, and with no fields; nothing that existed changes |
| Interp.Interpreter.FillFields | juice/src/juice/interpreter.rs:265-268 | the field loop: values in order; after all succeed, the fields are exactly the bindings; with no assignment in the values, nothing that existed changes; every field value meets its FateOf and the loop halts or completes as RunFrom says |
| Interp.Interpreter.FillField | juice/src/juice/interpreter.rs:266-267 | one field set when its value succeeds, and nothing changed otherwise; with no assignment in the construction, nothing that existed changes; the value meets its FateOf |
| Interp.Interpreter.EvaluateArrayConstruction | juice/src/juice/interpreter.rs:283-293 | the elements in order, stopping at the first failure, and otherwise a fresh array of their values; an expression that holds no assignment leaves every binding, field and element that existed as it was; the outcome, and every sub-evaluation's outcome, is one FateOf allows for its expression |
| Interp.Interpreter.NewArray | juice/src/juice/interpreter.rs:290-292 | a fresh array holding the values, recorded as reachable; nothing that existed changes |
| Interp.Interpreter.CallMethod | juice/src/juice/value.rs:360-388 | runs the call in a fresh frame whose parent is the caller's environment, binds `this` then the parameters, restores the environment, and yields CallOutcome; no binding of the caller's frames, no field and no element changes |
| Interp.Interpreter.Bind | juice/src/juice/value.rs:361-370 | a fresh frame whose parent is the caller's environment, holding `this` then the parameters in order; a repeated name is the "already defined" panic; no frame that existed changes |
| Runtime.Decimal | juice/src/juice/method.rs:35-46 | a number's decimal text is a non-empty run of digits |
| Runtime.ArityError | juice/src/juice/method.rs:32-48 | no error exactly when min ≤ count ≤ max; when min ≠ max the message is "Expected (min, max] arguments but got n"; otherwise it prints the actual count twice |
| Runtime.ArityMessageIgnoresExpected | juice/src/juice/method.rs:43-47 | with min == max the message does not depend on the expected count |
| Runtime.NativeFunction.Call | juice/src/juice/native_function.rs:25-46 | a count outside the range is the arity error and the function is not invoked; within it, exactly the function's result on the same arguments |
| Runtime.NativeMethod.Call | juice/src/juice/native_method.rs:29-50 | a count outside the range is the arity error with nothing changed; within it, the function runs on the receiver cell's current value and the unchanged arguments; the cell keeps its value |
| Runtime.Cell.constructor | juice/src/juice/native_method.rs:7 | the shared receiver cell holds the given value |
| Runtime.NewMethod | juice/src/juice/method.rs:15-23 | min = max = parameter count, and unbound |
| Runtime.Method.Bind | juice/src/juice/method.rs:25-27 | sets the receiver, replacing any earlier one, and keeps the rest |
| Runtime.CallValues | juice/src/juice/method.rs:50-63 | the receiver, then each argument that has a parameter |
| Runtime.Finish | juice/src/juice/method.rs:66-76 | normal completion is Void; Return(v) is v; Break and Continue are "outside of loop" errors; an Error propagates unchanged |
| Runtime.CallFrame | juice/src/juice/method.rs:50-63 | the frame binds exactly `this` and the bound parameter names |
| Runtime.CallOutcomeShape | juice/src/juice/method.rs:31-78 | arity is checked before anything else; then an unbound method fails with "Method not bound to an object"; then, with distinct names, the body's outcome is mapped by Finish; no Flow other than Error leaves a call |
| Runtime.CallFrameBinds | juice/src/juice/method.rs:50-63 | `this` is the receiver and each parameter is bound to the argument at the same position |
| Runtime.Method.Call | juice/src/juice/method.rs:31-78 | computes CallOutcome and leaves the environment's frame stack as it found it |
| Runtime.Method.BindCall | juice/src/juice/method.rs:50-63 | the binding closure: unbound is the error; a repeated name is the define error; otherwise the frame holds exactly the bindings |
| Runtime.Object.constructor | juice/src/juice/object.rs:12-17 | both tables start empty |
| Runtime.Object.Instantiate | juice/src/juice/object.rs:19-25 | a fresh object with the same method entries and no fields |
| Runtime.Object.GetMethod | juice/src/juice/object.rs:27-32 | the method exactly when present, otherwise "Method {name} not found" |
| Runtime.Object.SetMethod | juice/src/juice/object.rs:34-37 | inserts or overwrites one method, returns Void, and leaves the fields and other methods unchanged |
| Runtime.Object.GetValue | juice/src/juice/object.rs:39-44 | the field exactly when present, otherwise "Field {name} not found" |
| Runtime.Object.SetValue | juice/src/juice/object.rs:46-49 | inserts or overwrites one field, returns Void, reads back, and leaves the methods and other fields unchanged |
| Runtime.Object.DefineValue | juice/src/juice/env.rs:38-40 | fails on a name already defined in this frame; otherwise it binds it |
| Runtime.Object.DefineAll | juice/src/juice/method.rs:50-63 | binds names in order and stops at the first repeated one |
| Runtime.Object.DefineMethod | juice/src/juice/env.rs:69-75 | fails on a method name already defined in this frame; otherwise it binds it |
| Runtime.FirstEqual | juice/src/juice/array.rs:100-107 | the first index equal to the value, or None when none is |
| Runtime.ArrayStep | juice/src/juice/array.rs:69-113 | the effect of each array operation: length; add appends every argument in order; insert places the value and shifts right, and rejects index == length; remove_at deletes one element; remove deletes the first equal element or nothing; clear empties; a failure changes nothing |
| Runtime.Run | juice/src/juice/array.rs:69-113 | a receiver that is not an Array is the array error with nothing changed |
| Runtime.RemoveKeepsOthers | juice/src/juice/array.rs:92-98 | the elements left after removing one, together with the removed one, are the original multiset |
| Runtime.InsertThenRemoveAt | juice/src/juice/array.rs:83-98 | insert at a valid index followed by remove_at at that index restores the elements |
| Runtime.ArrayMethods | juice/src/juice/array.rs:18-49 | length(0), add(1), insert(2), removeAt(1), remove(1) and clear(0), each an array native method on the one shared receiver cell |
| Runtime.Array.constructor | juice/src/juice/array.rs:11-16 | the given elements and no wrapper |
| Runtime.Array.Wrap | juice/src/juice/array.rs:18-49 | the wrapper is a fresh object whose methods are ArrayMethods of the receiver cell; the elements are unchanged |
| Runtime.Array.CheckIndex | juice/src/juice/array.rs:51-56 | accepts exactly 0 ≤ index < length, otherwise "Index out of bounds" |
| Runtime.Array.GetValue | juice/src/juice/array.rs:58-61 | the element at a valid index, otherwise the index error |
| Runtime.Array.SetValue | juice/src/juice/array.rs:63-67 | replaces only the element at the index and keeps the length; out of range it fails with no change |
| Runtime.Array.Length | juice/src/juice/array.rs:69-73 | the element count of an Array receiver, otherwise the array error |
| Runtime.Array.Add | juice/src/juice/array.rs:75-81 | performs Run's add |
| Runtime.Array.Insert | juice/src/juice/array.rs:83-90 | performs Run's insert |
| Runtime.Array.RemoveAt | juice/src/juice/array.rs:92-98 | performs Run's remove_at |
| Runtime.Array.Remove | juice/src/juice/array.rs:100-107 | performs Run's remove |
| Runtime.Array.Clear | juice/src/juice/array.rs:109-113 | performs Run's clear |
| Runtime.Array.Dispatch | juice/src/juice/native_method.rs:48 | calls the array operation a native method names |
| Runtime.Topmost | juice/src/juice/env.rs:42-67 | the topmost frame holding the name, or None when no frame does |
| Runtime.Env.constructor | juice/src/juice/env.rs:10-14 | exactly one empty root frame |
| Runtime.Env.Current | juice/src/juice/env.rs:34-36 | the top frame |
| Runtime.Env.Push | juice/src/juice/env.rs:16-18 | adds the frame on top |
| Runtime.Env.PushDefault | juice/src/juice/env.rs:20-22 | adds a fresh empty frame on top |
| Runtime.Env.Pop | juice/src/juice/env.rs:24-32 | with only the root it fails "Cannot pop the default environment" and changes nothing; otherwise it removes exactly the top frame |
| Runtime.Env.DefineValue | juice/src/juice/env.rs:38-40 | defines in the top frame only |
| Runtime.Env.DefineMethod | juice/src/juice/env.rs:69-71 | defines a method in the top frame only |
| Runtime.Env.DefineNativeFunction | juice/src/juice/env.rs:73-75 | defines a native function in the top frame only |
| Runtime.Env.GetValue | juice/src/juice/env.rs:51-58 | searches from the top down and returns the first hit, otherwise "Variable {name} not found" |
| Runtime.Env.GetMethod | juice/src/juice/env.rs:60-67 | the same search in the method tables, otherwise "Method {name} not found" |
| Runtime.Env.SetValue | juice/src/juice/env.rs:42-49 | updates only the topmost frame that already holds the name, and fails with no change when none does |
| Binding.BindStep | juice/src/juice/method.rs:59-61 | one step of the binding loop: a repeated name stops it, a new name extends the bindings |
| Binding.FirstRepeatedFrom | juice/src/juice/method.rs:59-61 | the first name that repeats an earlier one, or None exactly when all are distinct |
| Binding.Bindings | juice/src/juice/method.rs:59-61 | the bound names are exactly the given names |
| Binding.BindingsLast | juice/src/juice/method.rs:59-61 | a name maps to the value of its last occurrence |
| Binding.BindingsDistinct | juice/src/juice/method.rs:59-61 | with distinct names, each maps to its own value |
| Binding.BoundNames | juice/src/juice/method.rs:53-60 | `this`, then one parameter name per argument, as the zip stops at the shorter list |
| Builtins.Length | juice/src/juice/builtin_function.rs:35-43 | a String's byte length, an Array's element count, an error for anything else, and a panic without an argument |
| Builtins.RangeSeq | juice/src/juice/builtin_function.rs:54-59 | start, start + step, … strictly below end; empty when start ≥ end |
| Builtins.RangeAdvance | juice/src/juice/builtin_function.rs:56-59 | one loop step moves one number from the range to the output |
| Builtins.NumbersAppend | juice/src/juice/builtin_function.rs:57 | wrapping numbers as values distributes over concatenation |
| Builtins.Numbers | juice/src/juice/builtin_function.rs:57 | each number becomes a Number value, in order |
| Builtins.Range | juice/src/juice/builtin_function.rs:45-62 | a missing or non-Number argument is the panic or error; otherwise a fresh unwrapped array of RangeSeq(start, end, step), with step 1 by default |
| Builtins.Assert | juice/src/juice/builtin_function.rs:11-17 | a panic with fewer than two arguments; Void when the two arguments compare equal; the "Assertion fialed" panic showing both when they differ; the boolean error when the comparison is not a Bool; the comparison's own failure is passed on |

## Left out
- Interp.Interpreter.Evaluate: for an expression that runs more than one assignment, such as `a = (b = 1)` or an assignment inside an argument, the change to the store is not stated as a whole. Each assignment states its own store through its rule. The frame promise covers expressions with no assignment, and assignments whose operands hold none.
- Interp.Interpreter.EvaluateAssignment: the promise that the store is the only change holds only when neither the value nor the target's operands run an assignment of their own.
- Interp.Interpreter.Store: the single-change promise holds only when the target's operands run no assignment.
- Interp.Interpreter.AssignField: the single-change promise holds only when the receiver runs no assignment.
- Interp.Interpreter.AssignElement: the single-change promise holds only when neither the array operand nor the index runs an assignment.
- Interp.Interpreter.StoreElement: the full new contents of the array are stated only when the index runs no assignment; otherwise only the written element is.
- Interp.Interpreter.Evaluate: FateOf leaves the outcome open wherever it depends on the store or on code outside the expression. The open cases are listed below by member. In those cases the outcome is tied to the sub-outcomes by the rule, not to the expression.
- Interp.Interpreter.Operand: the first-leaf panic is stated for every expression, but the outcome is fixed only as far as FateOf fixes it.
- Interp.Interpreter.EvaluateAll: after an element whose fate is open, the rest of the run is open as well (Unsure), because that element may or may not succeed.
- Interp.Interpreter.Invoke: the outcome of the method call after the arguments is CallOutcome through the rule; FateOf leaves it open.
- Interp.Interpreter.EvaluateCall: a call of a method or native method is open in FateOf; its outcome is stated by the rule, as CallOutcome or the host's result.
- Interp.Interpreter.CallWith: the same open call outcome as EvaluateCall.
- Interp.Interpreter.EvaluateMethodAccess: whether the object has the method, and what the call gives, depend on the object's table and the method body, so FateOf leaves a method access on an object open.
- Interp.Interpreter.CallMember: the same open outcome as EvaluateMethodAccess.
- Interp.Interpreter.EvaluateFieldAccess: whether the object has the field depends on its table, so FateOf leaves a field read on an object open.
- Interp.Interpreter.EvaluateArrayAccess: a Number index into an array is open in FateOf, because being in range depends on the array's length.
- Interp.Interpreter.EvaluateBinary: FateOf leaves open division of two Numbers (the divisor may be zero), `==` and `!=` (which may exceed the comparison depth), and `and`/`or` with a Bool left operand and a right operand of another kind (whether that operand is looked at depends on the left value).
- Interp.Interpreter.StoreThrough: element stores with a Number index are open in FateOf, as for EvaluateArrayAccess.
- Interp.Interpreter.StoreIntoVariable: whether a frame binds the name depends on the environment, so a variable store is open in FateOf.
- Interp.Interpreter.StoreIntoArray: the same open element store as EvaluateArrayAccess.
- Interp.Interpreter.Apply: the `host` behind a native method is a pure function from the method's name and argument values to a plain outcome. A native method that returns one of its argument objects or arrays, allocates an array, or changes an argument array through its shared cell is not modelled at this level. The array methods on the shared cell are modelled in module Runtime (Runtime.NativeMethod.Call, Runtime.ArrayStep).

- Revision skew: the files come from two revisions that do not fit together. `value.rs` and `interpreter.rs` form module Interp. `object.rs`, `array.rs`, `env.rs`, `method.rs` and `native_*.rs` form module Runtime. The syntax trees take the shape that `parser.rs` and `interpreter.rs` use, not the stale `ast.rs`.
- `env.rs` calls `Object.values`, `define_value`, `define_method` and `define_native_function`, which the shown `object.rs` lacks. They are modelled as the field table and as definitions that reject a name already in the frame. Their messages are assumed to follow `interpreter.rs:18-24`.
- `execute_block_with_closure` is not part of this model. Runtime.Method.Call pushes a frame, runs the binding closure, runs the body through an `execute` parameter and pops the frame.
- Statements: `execute_statement` and literal and identifier evaluation are `todo!()` in `interpreter.rs`. The model gives them the not-yet-implemented panic and invents no statement semantics. For that reason evaluation needs no fuel: a method body never evaluates an expression. Interp.Interpreter.Interpret has no loop, because every run stops at the first statement.
- Numbers are unbounded integers, not `f64`. NaN, infinities, rounding and the saturating `as i32` / `as usize` casts are not modelled, and neither are fractional `range` steps.
- Interp.Div: division is the quotient truncated toward zero, standing in for real division.
- Interp.Rem: with a zero divisor `f64` gives NaN, and the model states nothing about the result.
- Builtins.Range requires a positive step whenever start < end, because the source loop has no guard and never ends otherwise.
- Host function pointers are names. What a name does is a `host` parameter, so Runtime.NativeFunction.Call and Runtime.NativeMethod.Call state the arity check and the delegation, not what the function does.
- Derived `PartialEq` on values is a comparison with a depth bound. Past the bound the native stack would overflow; the model calls that a panic.
  - `HashMap` equality reports a definite difference before an overflow, because the source's iteration order is unspecified.
  - Runtime takes the equality of its later `Value` as a parameter, because that `Value` is not shown.
- `HashMap` iteration order: a parsed object's fields are kept in first-insertion order with the last value. Construction sets them in that order, whereas the source iterates in an unspecified order.
- Parser panics become `Failure` results that carry the message. Parsing.Parser requires a token list that ends with its Eof token, which is what the lexer produces.
- The six binary-level functions of `parser.rs` are one function, Grammar.BinaryLevel, indexed by level.
- Unicode `is_alphabetic` / `is_numeric` are a `Classes` parameter. AsciiAgrees fixes their ASCII part. `is_whitespace` is written out from Unicode's White_Space list.
- The lexer's `usize` column arithmetic cannot underflow here: integers are unbounded.
- `print`, `addr` and `str` in `builtin_function.rs` (output, addresses, `Display`) are left out. So are the `Debug`/`Display` impls. Builtins.Assert takes the display text as a parameter.
- `RefCell` borrow panics and `Rc` lifetimes: sharing is Dafny object identity, and dynamic borrow checking is not modelled.
- `main.rs`, `juice.rs` and `juice/mod.rs` are not part of this model.
