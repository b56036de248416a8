/**
 * The recursive-descent parser of `parser.rs`: a cursor over the tokens the
 * lexer produced, one method per production, each with the loops of the
 * source.  Every method is proved to compute the matching function of the
 * Grammar module, from the cursor it starts at, and to leave the cursor
 * where that function says; a panic of the source is a `Failure` result.
 */
module Parsing {
  import opened Wrappers
  import opened Tokens
  import A = Ast
  import G = Grammar
  import GF = GrammarFacts
  import GS = GrammarSteps

  class Parser {
    const tokens: seq<Token>
    var current: nat

    // Every method below requires, and keeps, that the tokens end with their
    // Eof token and that the cursor is on one of them:
    // `G.Terminated(tokens) && current < |tokens|`.

    /** `Parser::new`: the cursor on the first token. */
    constructor (tokens: seq<Token>)
      requires G.Terminated(tokens)
      ensures G.Terminated(tokens) && current < |tokens| && this.tokens == tokens && current == 0
    {
      this.tokens := tokens;
      current := 0;
    }

    /** `peek`: the token under the cursor. */
    function Peek(): Token
      reads this
      requires G.Terminated(tokens) && current < |tokens|
    {
      tokens[current]
    }

    /** `previous`: the token before the cursor. */
    function Previous(): Token
      reads this
      requires G.Terminated(tokens) && current < |tokens| && current > 0
    {
      tokens[current - 1]
    }

    // ----------------------------------------------------------- the cursor

    /** `advance`: one step unless at the end; the token just passed, or the panic of `previous` before the first token. */
    method Advance() returns (r: G.Parsed<Token>)
      requires G.Terminated(tokens) && current < |tokens|
      modifies this
      ensures G.Terminated(tokens) && current < |tokens| && r == G.Advance(tokens, old(current))
      ensures current == if r.Success? then r.next else old(current)
    {
      if !G.IsAtEnd(tokens, current) {
        current := current + 1;
      }
      if current == 0 {
        return G.Failure(G.CursorUnderflow);
      }
      r := G.Success(Previous(), current);
    }

    /** `match_token`: steps over the current token when it has this kind. */
    method MatchToken(kind: TokenType) returns (matched: bool)
      requires G.Terminated(tokens) && current < |tokens|
      modifies this
      ensures G.Terminated(tokens) && current < |tokens| && matched == G.Check(tokens, old(current), kind)
      ensures current == if matched then old(current) + 1 else old(current)
    {
      matched := G.Check(tokens, current, kind);
      if matched {
        var _ := Advance();
      }
    }

    /** The chain of `match_token` calls of one binary level: the operator stepped over, if any. */
    method MatchOperator(level: nat) returns (op: Option<A.BinaryOp>)
      requires G.Terminated(tokens) && current < |tokens|
      modifies this
      ensures G.Terminated(tokens) && current < |tokens| && op == G.OperatorAt(tokens, old(current), level)
      ensures current == if op.Some? then old(current) + 1 else old(current)
    {
      op := G.OperatorAt(tokens, current, level);
      if op.Some? {
        var _ := Advance();
      }
    }

    /** `match_token_sequence_no_advance`: whether the tokens ahead have these kinds; the cursor comes back. */
    method MatchTokenSequenceNoAdvance(kinds: seq<TokenType>) returns (matched: bool)
      requires G.Terminated(tokens) && current < |tokens|
      modifies this
      ensures G.Terminated(tokens) && current < |tokens| && matched == G.SequenceAt(tokens, old(current), kinds)
      ensures current == old(current)
    {
      var start := current;
      var i := 0;
      while i < |kinds|
        invariant G.Terminated(tokens) && current < |tokens| && 0 <= i <= |kinds| && current == start + i
        invariant G.SequenceAt(tokens, start, kinds) == G.SequenceAt(tokens, current, kinds[i..])
      {
        assert kinds[i..][1..] == kinds[i + 1..];
        if !G.Check(tokens, current, kinds[i]) {
          current := start;
          return false;
        }
        var _ := Advance();
        i := i + 1;
      }
      current := start;
      matched := true;
    }

    /** `consume`: steps over a token of the expected kind, or panics with the expectation's message. */
    method Consume(kind: TokenType, what: G.Expectation) returns (r: G.Parsed<Token>)
      requires G.Terminated(tokens) && current < |tokens|
      modifies this
      ensures G.Terminated(tokens) && current < |tokens| && r == G.Consume(tokens, old(current), kind, what)
      ensures current == if r.Success? then r.next else old(current)
    {
      if !G.Check(tokens, current, kind) {
        return G.Failure(G.Expected(what));
      }
      r := Advance();
    }

    /** `consume_identifier`: the lexeme of the identifier stepped over. */
    method ConsumeIdentifier(what: G.Expectation) returns (r: G.Parsed<string>)
      requires G.Terminated(tokens) && current < |tokens|
      modifies this
      ensures G.Terminated(tokens) && current < |tokens| && r == G.ConsumeIdentifier(tokens, old(current), what)
      ensures current == if r.Success? then r.next else old(current)
    {
      var token := Consume(Identifier, what);
      match token
      case Failure(e) => r := G.Failure(e);
      case Success(t, q) => r := G.Success(t.lexeme, q);
    }

    // ------------------------------------------------------------ statements

    /** `parse`: statements until the end of the tokens. */
    method Parse() returns (r: G.Parsed<seq<A.Statement>>)
      requires G.Terminated(tokens) && current < |tokens|
      modifies this
      ensures G.Terminated(tokens) && current < |tokens| && r == G.Program(tokens, old(current), [])
      ensures r.Success? ==> current == r.next
    {
      var statements: seq<A.Statement> := [];
      while !G.IsAtEnd(tokens, current)
        invariant G.Terminated(tokens) && current < |tokens| && G.Program(tokens, old(current), []) == G.Program(tokens, current, statements)
        decreases |tokens| - current
      {
        var s := Statement();
        if s.Failure? {
          return G.Failure(s.error);
        }
        statements := statements + [s.value];
      }
      r := G.Success(statements, current);
    }

    /** `statement`: the production the current token starts. */
    method Statement() returns (r: G.Parsed<A.Statement>)
      requires G.Terminated(tokens) && current < |tokens|
      modifies this
      ensures G.Terminated(tokens) && current < |tokens| && r == G.Statement(tokens, old(current))
      ensures r.Success? ==> current == r.next
      decreases |tokens| - current, 10
    {
      match Peek().kind
      case Object => r := ObjectDeclaration();
      case Trait => r := TraitDeclaration();
      case Var => r := VarDeclaration();
      case While => r := WhileStatement();
      case For => r := ForStatement();
      case If => r := IfStatement();
      case Break => r := BreakStatement();
      case Continue => r := ContinueStatement();
      case Return => r := ReturnStatement();
      case _ => r := ExpressionStatement();
    }

    /** `object_declaration`: `object`, a name, an annotation, and method declarations in braces. */
    method ObjectDeclaration() returns (r: G.Parsed<A.Statement>)
      requires G.Terminated(tokens) && current < |tokens|
      modifies this
      ensures G.Terminated(tokens) && current < |tokens| && r == G.ObjectDeclaration(tokens, old(current))
      ensures r.Success? ==> current == r.next
      decreases |tokens| - current, 9
    {
      var keyword := Consume(Object, G.ObjectKeyword);
      if keyword.Failure? {
        return G.Failure(keyword.error);
      }
      var name := ConsumeIdentifier(G.ObjectName);
      if name.Failure? {
        return G.Failure(name.error);
      }
      var annotation := TypeAnnotation();
      if annotation.Failure? {
        return G.Failure(annotation.error);
      }
      ghost var body := current;
      assert G.ObjectDeclaration(tokens, old(current)) == G.ObjectBody(tokens, body, name.value, annotation.value);
      var open := Consume(LeftBrace, G.ObjectBodyOpen);
      if open.Failure? {
        return G.Failure(open.error);
      }
      ghost var first := current;
      var methods: seq<A.MethodDeclaration> := [];
      while !G.Check(tokens, current, RightBrace) && !G.IsAtEnd(tokens, current)
        invariant G.Terminated(tokens) && current < |tokens| && first <= current
        invariant G.Methods(tokens, first, []) == G.Methods(tokens, current, methods)
        decreases |tokens| - current
      {
        var m := MethodDeclaration();
        if m.Failure? {
          return G.Failure(m.error);
        }
        methods := methods + [m.value];
      }
      var close := Consume(RightBrace, G.ObjectBodyClose);
      if close.Failure? {
        return G.Failure(close.error);
      }
      r := G.Success(A.ObjectDecl(name.value, annotation.value, methods), current);
    }

    /** `method_declaration`: a signature and a block. */
    method MethodDeclaration() returns (r: G.Parsed<A.MethodDeclaration>)
      requires G.Terminated(tokens) && current < |tokens|
      modifies this
      ensures G.Terminated(tokens) && current < |tokens| && r == G.MethodDeclaration(tokens, old(current))
      ensures r.Success? ==> current == r.next
      decreases |tokens| - current, 2
    {
      var signature := MethodSignature();
      if signature.Failure? {
        return G.Failure(signature.error);
      }
      var body := Block();
      if body.Failure? {
        return G.Failure(body.error);
      }
      r := G.Success(A.MethodDeclaration(signature.value, body.value), current);
    }

    /** `method_signature`: a name, parameters in parentheses unless `)` follows at once, and a return annotation. */
    method MethodSignature() returns (r: G.Parsed<A.MethodSignature>)
      requires G.Terminated(tokens) && current < |tokens|
      modifies this
      ensures G.Terminated(tokens) && current < |tokens| && r == G.MethodSignature(tokens, old(current))
      ensures r.Success? ==> current == r.next
    {
      var name := ConsumeIdentifier(G.MethodName);
      if name.Failure? {
        return G.Failure(name.error);
      }
      var open := Consume(LeftParen, G.ParamsOpen);
      if open.Failure? {
        return G.Failure(open.error);
      }
      assert G.MethodSignature(tokens, old(current)) == G.SignatureRest(tokens, current, name.value);
      var params: seq<A.Parameter> := [];
      if !G.Check(tokens, current, RightParen) {
        var list := ParameterList();
        if list.Failure? {
          return G.Failure(list.error);
        }
        params := list.value;
      }
      var close := Consume(RightParen, G.ParamsClose);
      if close.Failure? {
        return G.Failure(close.error);
      }
      var returnType := TypeAnnotation();
      if returnType.Failure? {
        return G.Failure(returnType.error);
      }
      r := G.Success(A.MethodSignature(name.value, params, returnType.value), current);
    }

    /** `parameter_list`: a name and an annotation, again after each `,`. */
    method ParameterList() returns (r: G.Parsed<seq<A.Parameter>>)
      requires G.Terminated(tokens) && current < |tokens|
      modifies this
      ensures G.Terminated(tokens) && current < |tokens| && r == G.ParameterList(tokens, old(current), [])
      ensures r.Success? ==> current == r.next
    {
      var params: seq<A.Parameter> := [];
      while true
        invariant G.Terminated(tokens) && current < |tokens|
        invariant G.ParameterList(tokens, old(current), []) == G.ParameterList(tokens, current, params)
        decreases |tokens| - current
      {
        ghost var before := current;
        var param := Parameter();
        match param
        case Failure(e) =>
          return G.Failure(e);
        case Success(v, q) =>
          GS.ParametersEntry(tokens, before, params, v, q);
          params := params + [v];
          var comma := MatchToken(Comma);
          if !comma {
            return G.Success(params, current);
          }
          GS.ParametersNext(tokens, q, current, params);
      }
    }

    /** One turn of the loop of `parameter_list`: a name and its annotation. */
    method Parameter() returns (r: G.Parsed<A.Parameter>)
      requires G.Terminated(tokens) && current < |tokens|
      modifies this
      ensures G.Terminated(tokens) && current < |tokens| && r == G.Parameter(tokens, old(current))
      ensures r.Success? ==> current == r.next
    {
      var name := ConsumeIdentifier(G.ParameterName);
      if name.Failure? {
        return G.Failure(name.error);
      }
      var annotation := TypeAnnotation();
      if annotation.Failure? {
        return G.Failure(annotation.error);
      }
      r := G.Success(A.Parameter(name.value, annotation.value), current);
    }

    /** `type_annotation`: nothing without a colon, else type names separated by `+`. */
    method TypeAnnotation() returns (r: G.Parsed<A.Annotation>)
      requires G.Terminated(tokens) && current < |tokens|
      modifies this
      ensures G.Terminated(tokens) && current < |tokens| && r == G.TypeAnnotation(tokens, old(current))
      ensures r.Success? ==> current == r.next
    {
      var colon := MatchToken(Colon);
      if !colon {
        return G.Success(None, current);
      }
      ghost var first := current;
      var types: seq<string> := [];
      while true
        invariant G.Terminated(tokens) && current < |tokens| && first <= current
        invariant G.TypeList(tokens, first, []) == G.TypeList(tokens, current, types)
        decreases |tokens| - current
      {
        ghost var before := current;
        var name := TypeIdentifier();
        match name
        case Failure(e) =>
          return G.Failure(e);
        case Success(v, q) =>
          GS.TypesEntry(tokens, before, types, v, q);
          types := types + [v];
          var plus := MatchToken(Plus);
          if !plus {
            return G.Success(Some(types), current);
          }
          GS.TypesNext(tokens, q, current, types);
      }
    }

    /** `type_identifier`: identifiers separated by `.`, joined with `.`. */
    method TypeIdentifier() returns (r: G.Parsed<string>)
      requires G.Terminated(tokens) && current < |tokens|
      modifies this
      ensures G.Terminated(tokens) && current < |tokens| && r == G.TypeIdentifier(tokens, old(current))
      ensures r.Success? ==> current == r.next
    {
      var first := ConsumeIdentifier(G.TypeName);
      if first.Failure? {
        return G.Failure(first.error);
      }
      ghost var start := current;
      var name := first.value;
      while true
        invariant G.Terminated(tokens) && current < |tokens| && start <= current
        invariant G.DottedName(tokens, start, first.value) == G.DottedName(tokens, current, name)
        decreases |tokens| - current
      {
        var dot := MatchToken(Dot);
        if !dot {
          return G.Success(name, current);
        }
        var part := ConsumeIdentifier(G.TypePart);
        if part.Failure? {
          return G.Failure(part.error);
        }
        name := name + "." + part.value;
      }
    }

    /** `trait_declaration`: `trait`, a name, an annotation, and signatures each ended by `;`, in braces. */
    method TraitDeclaration() returns (r: G.Parsed<A.Statement>)
      requires G.Terminated(tokens) && current < |tokens|
      modifies this
      ensures G.Terminated(tokens) && current < |tokens| && r == G.TraitDeclaration(tokens, old(current))
      ensures r.Success? ==> current == r.next
    {
      var keyword := Consume(Trait, G.TraitKeyword);
      if keyword.Failure? {
        return G.Failure(keyword.error);
      }
      var name := ConsumeIdentifier(G.TraitName);
      if name.Failure? {
        return G.Failure(name.error);
      }
      var annotation := TypeAnnotation();
      if annotation.Failure? {
        return G.Failure(annotation.error);
      }
      assert G.TraitDeclaration(tokens, old(current)) == G.TraitBody(tokens, current, name.value, annotation.value);
      var open := Consume(LeftBrace, G.TraitBodyOpen);
      if open.Failure? {
        return G.Failure(open.error);
      }
      ghost var first := current;
      var signatures: seq<A.MethodSignature> := [];
      while !G.Check(tokens, current, RightBrace) && !G.IsAtEnd(tokens, current)
        invariant G.Terminated(tokens) && current < |tokens| && first <= current
        invariant G.Signatures(tokens, first, []) == G.Signatures(tokens, current, signatures)
        decreases |tokens| - current
      {
        var signature := MethodSignature();
        if signature.Failure? {
          return G.Failure(signature.error);
        }
        var semicolon := Consume(Semicolon, G.SignatureEnd);
        if semicolon.Failure? {
          return G.Failure(semicolon.error);
        }
        signatures := signatures + [signature.value];
      }
      var close := Consume(RightBrace, G.TraitBodyClose);
      if close.Failure? {
        return G.Failure(close.error);
      }
      r := G.Success(A.TraitDecl(name.value, annotation.value, signatures), current);
    }

    /** `var_declaration`: `var`, a name, an annotation, `=`, an initializer and `;`. */
    method VarDeclaration() returns (r: G.Parsed<A.Statement>)
      requires G.Terminated(tokens) && current < |tokens|
      modifies this
      ensures G.Terminated(tokens) && current < |tokens| && r == G.VarDeclaration(tokens, old(current))
      ensures r.Success? ==> current == r.next
    {
      var keyword := Consume(Var, G.VarKeyword);
      if keyword.Failure? {
        return G.Failure(keyword.error);
      }
      var name := ConsumeIdentifier(G.VariableName);
      if name.Failure? {
        return G.Failure(name.error);
      }
      var annotation := TypeAnnotation();
      if annotation.Failure? {
        return G.Failure(annotation.error);
      }
      assert G.VarDeclaration(tokens, old(current)) == G.Initializer(tokens, current, name.value, annotation.value);
      var equal := Consume(Equal, G.VarEqual);
      if equal.Failure? {
        return G.Failure(equal.error);
      }
      var initializer := Expression();
      if initializer.Failure? {
        return G.Failure(initializer.error);
      }
      var semicolon := Consume(Semicolon, G.VarEnd);
      if semicolon.Failure? {
        return G.Failure(semicolon.error);
      }
      r := G.Success(A.VarDecl(name.value, annotation.value, initializer.value), current);
    }

    /** `while_statement`: `while`, a condition in parentheses, and a block. */
    method WhileStatement() returns (r: G.Parsed<A.Statement>)
      requires G.Terminated(tokens) && current < |tokens|
      modifies this
      ensures G.Terminated(tokens) && current < |tokens| && r == G.WhileStatement(tokens, old(current))
      ensures r.Success? ==> current == r.next
      decreases |tokens| - current, 9
    {
      var keyword := Consume(While, G.WhileKeyword);
      if keyword.Failure? {
        return G.Failure(keyword.error);
      }
      var condition := Condition(G.WhileOpen);
      if condition.Failure? {
        return G.Failure(condition.error);
      }
      var body := Block();
      if body.Failure? {
        return G.Failure(body.error);
      }
      r := G.Success(A.While(condition.value, body.value), current);
    }

    /** The condition of `while` and `if`: `(`, an expression and `)`. */
    method Condition(open: G.Expectation) returns (r: G.Parsed<A.Expression>)
      requires G.Terminated(tokens) && current < |tokens|
      modifies this
      ensures G.Terminated(tokens) && current < |tokens| && r == G.Condition(tokens, old(current), open)
      ensures r.Success? ==> current == r.next
    {
      var paren := Consume(LeftParen, open);
      if paren.Failure? {
        return G.Failure(paren.error);
      }
      var condition := Expression();
      if condition.Failure? {
        return G.Failure(condition.error);
      }
      var close := Consume(RightParen, G.ConditionClose);
      if close.Failure? {
        return G.Failure(close.error);
      }
      r := G.Success(condition.value, current);
    }

    /** `for_statement`: `for (var name in iterable)` and a block. */
    method ForStatement() returns (r: G.Parsed<A.Statement>)
      requires G.Terminated(tokens) && current < |tokens|
      modifies this
      ensures G.Terminated(tokens) && current < |tokens| && r == G.ForStatement(tokens, old(current))
      ensures r.Success? ==> current == r.next
      decreases |tokens| - current, 9
    {
      var keyword := Consume(For, G.ForKeyword);
      if keyword.Failure? {
        return G.Failure(keyword.error);
      }
      var open := Consume(LeftParen, G.ForOpen);
      if open.Failure? {
        return G.Failure(open.error);
      }
      var varKeyword := Consume(Var, G.ForVar);
      if varKeyword.Failure? {
        return G.Failure(varKeyword.error);
      }
      var variable := ConsumeIdentifier(G.ForVariable);
      if variable.Failure? {
        return G.Failure(variable.error);
      }
      assert G.ForStatement(tokens, old(current)) == G.ForRest(tokens, current, variable.value);
      var inKeyword := Consume(In, G.InKeyword);
      if inKeyword.Failure? {
        return G.Failure(inKeyword.error);
      }
      var iterable := Expression();
      if iterable.Failure? {
        return G.Failure(iterable.error);
      }
      var close := Consume(RightParen, G.ForClose);
      if close.Failure? {
        return G.Failure(close.error);
      }
      var body := Block();
      if body.Failure? {
        return G.Failure(body.error);
      }
      r := G.Success(A.For(variable.value, iterable.value, body.value), current);
    }

    /** `if_statement`: `if`, a condition in parentheses, a block, and a block after `else` if one follows. */
    method IfStatement() returns (r: G.Parsed<A.Statement>)
      requires G.Terminated(tokens) && current < |tokens|
      modifies this
      ensures G.Terminated(tokens) && current < |tokens| && r == G.IfStatement(tokens, old(current))
      ensures r.Success? ==> current == r.next
      decreases |tokens| - current, 9
    {
      var keyword := Consume(If, G.IfKeyword);
      if keyword.Failure? {
        return G.Failure(keyword.error);
      }
      var condition := Condition(G.IfOpen);
      if condition.Failure? {
        return G.Failure(condition.error);
      }
      r := IfBranches(condition.value);
    }

    /** The branches of `if_statement` after its condition. */
    method IfBranches(condition: A.Expression) returns (r: G.Parsed<A.Statement>)
      requires G.Terminated(tokens) && current < |tokens|
      modifies this
      ensures G.Terminated(tokens) && current < |tokens| && r == G.IfBranches(tokens, old(current), condition)
      ensures r.Success? ==> current == r.next
      decreases |tokens| - current, 8
    {
      var thenBranch := Block();
      if thenBranch.Failure? {
        return G.Failure(thenBranch.error);
      }
      r := ElseBranch(condition, thenBranch.value);
    }

    /** After the `then` block: a block after `else` if one follows. */
    method ElseBranch(condition: A.Expression, thenBranch: seq<A.Statement>) returns (r: G.Parsed<A.Statement>)
      requires G.Terminated(tokens) && current < |tokens|
      modifies this
      ensures G.Terminated(tokens) && current < |tokens| && r == G.ElseBranch(tokens, old(current), condition, thenBranch)
      ensures r.Success? ==> current == r.next
      decreases |tokens| - current, 8
    {
      var elseKeyword := MatchToken(Else);
      if !elseKeyword {
        return G.Success(A.If(condition, thenBranch, None), current);
      }
      var elseBranch := Block();
      if elseBranch.Failure? {
        return G.Failure(elseBranch.error);
      }
      r := G.Success(A.If(condition, thenBranch, Some(elseBranch.value)), current);
    }

    /** `break_statement`: `break` and `;`. */
    method BreakStatement() returns (r: G.Parsed<A.Statement>)
      requires G.Terminated(tokens) && current < |tokens|
      modifies this
      ensures G.Terminated(tokens) && current < |tokens| && r == G.BreakStatement(tokens, old(current))
      ensures r.Success? ==> current == r.next
    {
      var keyword := Consume(Break, G.BreakKeyword);
      if keyword.Failure? {
        return G.Failure(keyword.error);
      }
      var semicolon := Consume(Semicolon, G.BreakEnd);
      if semicolon.Failure? {
        return G.Failure(semicolon.error);
      }
      r := G.Success(A.Break, current);
    }

    /** `continue_statement`: `continue` and `;`. */
    method ContinueStatement() returns (r: G.Parsed<A.Statement>)
      requires G.Terminated(tokens) && current < |tokens|
      modifies this
      ensures G.Terminated(tokens) && current < |tokens| && r == G.ContinueStatement(tokens, old(current))
      ensures r.Success? ==> current == r.next
    {
      var keyword := Consume(Continue, G.ContinueKeyword);
      if keyword.Failure? {
        return G.Failure(keyword.error);
      }
      var semicolon := Consume(Semicolon, G.ContinueEnd);
      if semicolon.Failure? {
        return G.Failure(semicolon.error);
      }
      r := G.Success(A.Continue, current);
    }

    /** `return_statement`: `return`, a value unless `;` follows at once, and `;`. */
    method ReturnStatement() returns (r: G.Parsed<A.Statement>)
      requires G.Terminated(tokens) && current < |tokens|
      modifies this
      ensures G.Terminated(tokens) && current < |tokens| && r == G.ReturnStatement(tokens, old(current))
      ensures r.Success? ==> current == r.next
    {
      var keyword := Consume(Return, G.ReturnKeyword);
      if keyword.Failure? {
        return G.Failure(keyword.error);
      }
      var value: Option<A.Expression> := None;
      if !G.Check(tokens, current, Semicolon) {
        var e := Expression();
        if e.Failure? {
          return G.Failure(e.error);
        }
        value := Some(e.value);
      }
      var semicolon := Consume(Semicolon, G.ReturnEnd);
      if semicolon.Failure? {
        return G.Failure(semicolon.error);
      }
      r := G.Success(A.Return(value), current);
    }

    /** `block`: `{`, statements until `}`, and `}`. */
    method Block() returns (r: G.Parsed<seq<A.Statement>>)
      requires G.Terminated(tokens) && current < |tokens|
      modifies this
      ensures G.Terminated(tokens) && current < |tokens| && r == G.Block(tokens, old(current))
      ensures r.Success? ==> current == r.next
      decreases |tokens| - current, 1
    {
      var open := Consume(LeftBrace, G.BlockOpen);
      if open.Failure? {
        return G.Failure(open.error);
      }
      ghost var first := current;
      var statements: seq<A.Statement> := [];
      while !G.Check(tokens, current, RightBrace)
        invariant G.Terminated(tokens) && current < |tokens| && first <= current
        invariant G.BlockBody(tokens, first, []) == G.BlockBody(tokens, current, statements)
        decreases |tokens| - current
      {
        var s := Statement();
        if s.Failure? {
          return G.Failure(s.error);
        }
        statements := statements + [s.value];
      }
      var _ := Consume(RightBrace, G.BlockClose);
      r := G.Success(statements, current);
    }

    /** `expression_statement`: an expression and `;`. */
    method ExpressionStatement() returns (r: G.Parsed<A.Statement>)
      requires G.Terminated(tokens) && current < |tokens|
      modifies this
      ensures G.Terminated(tokens) && current < |tokens| && r == G.ExpressionStatement(tokens, old(current))
      ensures r.Success? ==> current == r.next
    {
      var e := Expression();
      if e.Failure? {
        return G.Failure(e.error);
      }
      var semicolon := Consume(Semicolon, G.ExpressionEnd);
      if semicolon.Failure? {
        return G.Failure(semicolon.error);
      }
      r := G.Success(A.ExpressionStmt(e.value), current);
    }

    // ----------------------------------------------------------- expressions

    /** `expression`: an assignment. */
    method Expression() returns (r: G.Parsed<A.Expression>)
      requires G.Terminated(tokens) && current < |tokens|
      modifies this
      ensures G.Terminated(tokens) && current < |tokens| && r == G.Expression(tokens, old(current))
      ensures r.Success? ==> current == r.next
      decreases |tokens| - current, 30
    {
      r := Assignment();
    }

    /** `assignment`: a `||` expression, the target of an assignment when `=` follows. */
    method Assignment() returns (r: G.Parsed<A.Expression>)
      requires G.Terminated(tokens) && current < |tokens|
      modifies this
      ensures G.Terminated(tokens) && current < |tokens| && r == G.Assignment(tokens, old(current))
      ensures r.Success? ==> current == r.next
      decreases |tokens| - current, 29
    {
      var target := BinaryLevel(0);
      if target.Failure? {
        return target;
      }
      var equal := MatchToken(Equal);
      if !equal {
        return target;
      }
      var value := Assignment();
      if value.Failure? {
        return value;
      }
      r := G.Success(A.Assignment(target.value, value.value), current);
    }

    /** The operand of a binary level: the next tighter level, or `unary` under `factor`. */
    method Operand(level: nat) returns (r: G.Parsed<A.Expression>)
      requires G.Terminated(tokens) && current < |tokens| && level <= G.Tightest
      modifies this
      ensures G.Terminated(tokens) && current < |tokens| && r == G.Operand(tokens, old(current), level)
      ensures r.Success? ==> current == r.next
      decreases |tokens| - current, 19 - 3 * level
    {
      if level == G.Tightest {
        r := Unary();
      } else {
        r := BinaryLevel(level + 1);
      }
    }

    /**
     * `logical_or`, `logical_and`, `equality`, `comparison`, `term` and
     * `factor`, one method for the six levels: an operand, then while an
     * operator of the level follows, the tree so far becomes its left operand.
     */
    method BinaryLevel(level: nat) returns (r: G.Parsed<A.Expression>)
      requires G.Terminated(tokens) && current < |tokens| && level <= G.Tightest
      modifies this
      ensures G.Terminated(tokens) && current < |tokens| && r == G.BinaryLevel(tokens, old(current), level)
      ensures r.Success? ==> current == r.next
      decreases |tokens| - current, 20 - 3 * level
    {
      var left := Operand(level);
      if left.Failure? {
        return left;
      }
      var expr := left.value;
      while true
        invariant G.Terminated(tokens) && current < |tokens| && old(current) <= current
        invariant G.BinaryLevel(tokens, old(current), level) == G.BinaryTail(tokens, current, level, expr)
        decreases |tokens| - current
      {
        var op := MatchOperator(level);
        if op.None? {
          return G.Success(expr, current);
        }
        var right := Operand(level);
        if right.Failure? {
          return G.Failure(right.error);
        }
        expr := A.Binary(expr, op.value, right.value);
      }
    }

    /** `unary`: the `!` and `-` in front, applied to the postfix expression after them. */
    method Unary() returns (r: G.Parsed<A.Expression>)
      requires G.Terminated(tokens) && current < |tokens|
      modifies this
      ensures G.Terminated(tokens) && current < |tokens| && r == G.Unary(tokens, old(current))
      ensures r.Success? ==> current == r.next
      decreases |tokens| - current, 3
    {
      var operators := Prefixes();
      GS.UnaryStep(tokens, old(current), operators, current);
      var operand := Postfix();
      match operand
      case Failure(e) =>
        r := G.Failure(e);
      case Success(v, q) =>
        var expr := ApplyUnary(operators, v);
        r := G.Success(expr, q);
    }

    /** The first loop of `unary`: steps over each `!` or `-`, recording its operator. */
    method Prefixes() returns (operators: seq<A.UnaryOp>)
      requires G.Terminated(tokens) && current < |tokens|
      modifies this
      ensures G.Terminated(tokens) && current < |tokens| && operators == G.Prefixes(tokens, old(current))
      ensures current == old(current) + |operators|
    {
      operators := [];
      while true
        invariant G.Terminated(tokens) && current < |tokens| && current == old(current) + |operators|
        invariant G.Prefixes(tokens, old(current)) == operators + G.Prefixes(tokens, current)
        decreases |tokens| - current
      {
        ghost var before := current;
        var bang := MatchToken(Bang);
        var minus := false;
        if !bang {
          minus := MatchToken(Minus);
        }
        if !bang && !minus {
          return;
        }
        var op := if Previous().kind == Bang then A.Not else A.Negate;
        GS.PrefixesStep(tokens, old(current), operators, before, current, op);
        operators := operators + [op];
      }
    }

    /** The second loop of `unary`: the operators applied from the last to the first, so the first is outermost. */
    static method ApplyUnary(operators: seq<A.UnaryOp>, operand: A.Expression) returns (expr: A.Expression)
      ensures expr == G.Wrap(operators, operand)
    {
      expr := operand;
      var i := |operators|;
      assert operators[..i] == operators;
      while i > 0
        invariant 0 <= i <= |operators|
        invariant G.Wrap(operators, operand) == G.Wrap(operators[..i], expr)
      {
        GF.WrapLast(operators[..i], expr);
        assert operators[..i][..i - 1] == operators[..i - 1];
        expr := A.Unary(operators[i - 1], expr);
        i := i - 1;
      }
    }

    /** `postfix_expression`: a primary, then at most one call, member access or index. */
    method Postfix() returns (r: G.Parsed<A.Expression>)
      requires G.Terminated(tokens) && current < |tokens|
      modifies this
      ensures G.Terminated(tokens) && current < |tokens| && r == G.Postfix(tokens, old(current))
      ensures r.Success? ==> current == r.next
      decreases |tokens| - current, 2
    {
      var primary := Primary();
      if primary.Failure? {
        return primary;
      }
      r := Suffix(primary.value);
    }

    /** What `postfix_expression` does after the primary: a call after `(`, a member after `.`, an index after `[`. */
    method Suffix(expr: A.Expression) returns (r: G.Parsed<A.Expression>)
      requires G.Terminated(tokens) && current < |tokens|
      modifies this
      ensures G.Terminated(tokens) && current < |tokens| && r == G.Suffix(tokens, old(current), expr)
      ensures r.Success? ==> current == r.next
      decreases |tokens| - current, 1
    {
      ghost var start := current;
      var paren := MatchToken(LeftParen);
      if paren {
        assert G.Suffix(tokens, start, expr) == G.Call(tokens, current, expr);
        r := Call(expr);
        return;
      }
      var dot := MatchToken(Dot);
      if dot {
        GS.SuffixMember(tokens, start, current, expr);
        r := Member(expr);
        return;
      }
      var bracket := MatchToken(LeftBracket);
      if bracket {
        GS.SuffixIndex(tokens, start, current, expr);
        r := Index(expr);
        return;
      }
      r := G.Success(expr, current);
    }

    /** The call after `(`: the arguments unless `)` follows at once, and `)`. */
    method Call(callee: A.Expression) returns (r: G.Parsed<A.Expression>)
      requires G.Terminated(tokens) && current < |tokens|
      modifies this
      ensures G.Terminated(tokens) && current < |tokens| && r == G.Call(tokens, old(current), callee)
      ensures r.Success? ==> current == r.next
      decreases |tokens| - current, 34
    {
      var arguments: seq<A.Expression> := [];
      if !G.Check(tokens, current, RightParen) {
        var list := ArgumentList();
        if list.Failure? {
          return G.Failure(list.error);
        }
        arguments := list.value;
      }
      var close := Consume(RightParen, G.ArgumentsClose);
      if close.Failure? {
        return G.Failure(close.error);
      }
      r := G.Success(A.Call(callee, arguments), current);
    }

    /** The member after `.`: a method call when `(` follows, whose argument list is not optional, else a field. */
    method Member(receiver: A.Expression) returns (r: G.Parsed<A.Expression>)
      requires G.Terminated(tokens) && current < |tokens|
      modifies this
      ensures G.Terminated(tokens) && current < |tokens| && r == G.Member(tokens, old(current), receiver)
      ensures r.Success? ==> current == r.next
      decreases |tokens| - current, 34
    {
      var member := ConsumeIdentifier(G.PropertyName);
      if member.Failure? {
        return G.Failure(member.error);
      }
      if !G.Check(tokens, current, LeftParen) {
        return G.Success(A.FieldAccess(receiver, member.value), current);
      }
      var _ := Advance();
      var arguments := ArgumentList();
      if arguments.Failure? {
        return G.Failure(arguments.error);
      }
      var close := Consume(RightParen, G.MethodArgumentsClose);
      if close.Failure? {
        return G.Failure(close.error);
      }
      r := G.Success(A.MethodAccess(receiver, member.value, arguments.value), current);
    }

    /** The index after `[`, and `]`. */
    method Index(indexed: A.Expression) returns (r: G.Parsed<A.Expression>)
      requires G.Terminated(tokens) && current < |tokens|
      modifies this
      ensures G.Terminated(tokens) && current < |tokens| && r == G.Index(tokens, old(current), indexed)
      ensures r.Success? ==> current == r.next
      decreases |tokens| - current, 34
    {
      var index := Expression();
      if index.Failure? {
        return G.Failure(index.error);
      }
      var close := Consume(RightBracket, G.IndexClose);
      if close.Failure? {
        return G.Failure(close.error);
      }
      r := G.Success(A.ArrayAccess(indexed, index.value), current);
    }

    /** `argument_list`: expressions separated by `,`, at least one. */
    method ArgumentList() returns (r: G.Parsed<seq<A.Expression>>)
      requires G.Terminated(tokens) && current < |tokens|
      modifies this
      ensures G.Terminated(tokens) && current < |tokens| && r == G.ArgumentList(tokens, old(current), [])
      ensures r.Success? ==> current == r.next
      decreases |tokens| - current, 33
    {
      var arguments: seq<A.Expression> := [];
      while true
        invariant G.Terminated(tokens) && current < |tokens| && old(current) <= current
        invariant G.ArgumentList(tokens, old(current), []) == G.ArgumentList(tokens, current, arguments)
        decreases |tokens| - current
      {
        ghost var before := current;
        var argument := Expression();
        match argument
        case Failure(e) =>
          return G.Failure(e);
        case Success(v, q) =>
          GS.ArgumentsEntry(tokens, before, arguments, v, q);
          arguments := arguments + [v];
          var comma := MatchToken(Comma);
          if !comma {
            return G.Success(arguments, current);
          }
          GS.ArgumentsNext(tokens, q, current, arguments);
      }
    }

    /** `primary`: object construction, an object or array literal, a group, or a literal or name. */
    method Primary() returns (r: G.Parsed<A.Expression>)
      requires G.Terminated(tokens) && current < |tokens|
      modifies this
      ensures G.Terminated(tokens) && current < |tokens| && r == G.Primary(tokens, old(current))
      ensures r.Success? ==> current == r.next
      decreases |tokens| - current, 1
    {
      var construction := MatchTokenSequenceNoAdvance([Identifier, LeftBrace]);
      if construction {
        r := ObjectConstruction();
        return;
      }
      ghost var start := current;
      var brace := MatchToken(LeftBrace);
      if brace {
        GS.PrimaryBrace(tokens, start, current);
        r := AnonymousObjectConstruction();
        return;
      }
      var bracket := MatchToken(LeftBracket);
      if bracket {
        GS.PrimaryBracket(tokens, start, current);
        r := ArrayConstruction();
        return;
      }
      var paren := MatchToken(LeftParen);
      if paren {
        GS.PrimaryParen(tokens, start, current);
        r := Group();
        return;
      }
      r := Atom();
    }

    /** The last case of `primary`: the token `advance` steps over, as a literal or a name. */
    method Atom() returns (r: G.Parsed<A.Expression>)
      requires G.Terminated(tokens) && current < |tokens|
      modifies this
      ensures G.Terminated(tokens) && current < |tokens| && r == G.Atom(tokens, old(current))
      ensures r.Success? ==> current == r.next
    {
      var token := Advance();
      if token.Failure? {
        return G.Failure(token.error);
      }
      match G.Literal(token.value)
      case Some(e) => r := G.Success(e, current);
      case None => r := G.Failure(G.ExpectedExpression(token.value));
    }

    /** `group`: the expression after `(` and the closing `)`. */
    method Group() returns (r: G.Parsed<A.Expression>)
      requires G.Terminated(tokens) && current < |tokens|
      modifies this
      ensures G.Terminated(tokens) && current < |tokens| && r == G.Group(tokens, old(current))
      ensures r.Success? ==> current == r.next
      decreases |tokens| - current, 31
    {
      var e := Expression();
      if e.Failure? {
        return e;
      }
      var close := Consume(RightParen, G.GroupClose);
      if close.Failure? {
        return G.Failure(close.error);
      }
      r := G.Success(e.value, current);
    }

    /** `object_construction`: a type name, then `{`, the fields and `}`. */
    method ObjectConstruction() returns (r: G.Parsed<A.Expression>)
      requires G.Terminated(tokens) && current < |tokens|
      modifies this
      ensures G.Terminated(tokens) && current < |tokens| && r == G.ObjectConstruction(tokens, old(current))
      ensures r.Success? ==> current == r.next
      decreases |tokens| - current, 0
    {
      var name := TypeIdentifier();
      if name.Failure? {
        return G.Failure(name.error);
      }
      var open := Consume(LeftBrace, G.ObjectTypeOpen);
      if open.Failure? {
        return G.Failure(open.error);
      }
      var fields := FieldList();
      if fields.Failure? {
        return G.Failure(fields.error);
      }
      r := G.Success(A.ObjectConstruction(Some(name.value), fields.value), current);
    }

    /** `anonymous_object_construction`: after `{`, the fields and `}`. */
    method AnonymousObjectConstruction() returns (r: G.Parsed<A.Expression>)
      requires G.Terminated(tokens) && current < |tokens|
      modifies this
      ensures G.Terminated(tokens) && current < |tokens| && r == G.AnonymousObjectConstruction(tokens, old(current))
      ensures r.Success? ==> current == r.next
      decreases |tokens| - current, 37
    {
      var fields := FieldList();
      if fields.Failure? {
        return G.Failure(fields.error);
      }
      r := G.Success(A.ObjectConstruction(None, fields.value), current);
    }

    /** The fields both object forms read, and the closing `}`. */
    method FieldList() returns (r: G.Parsed<seq<A.Field>>)
      requires G.Terminated(tokens) && current < |tokens|
      modifies this
      ensures G.Terminated(tokens) && current < |tokens| && r == G.FieldList(tokens, old(current))
      ensures r.Success? ==> current == r.next
      decreases |tokens| - current, 36
    {
      var fields := Fields();
      if fields.Failure? {
        return fields;
      }
      var close := Consume(RightBrace, G.FieldsClose);
      if close.Failure? {
        return G.Failure(close.error);
      }
      r := G.Success(fields.value, current);
    }

    /**
     * The field loop of both object forms: `name = value` entries until `}`,
     * separated by `,` with a trailing `,` allowed, into a map.
     */
    method Fields() returns (r: G.Parsed<seq<A.Field>>)
      requires G.Terminated(tokens) && current < |tokens|
      modifies this
      ensures G.Terminated(tokens) && current < |tokens| && r == G.Fields(tokens, old(current), [])
      ensures r.Success? ==> current == r.next
      decreases |tokens| - current, 35
    {
      var fields: seq<A.Field> := [];
      while !G.Check(tokens, current, RightBrace)
        invariant G.Terminated(tokens) && current < |tokens| && old(current) <= current
        invariant G.Fields(tokens, old(current), []) == G.Fields(tokens, current, fields)
        decreases |tokens| - current
      {
        ghost var before := current;
        var entry := FieldEntry();
        match entry
        case Failure(e) =>
          return G.Failure(e);
        case Success(v, q) =>
          GS.FieldsEntry(tokens, before, fields, v, q);
          fields := G.Insert(fields, v.name, v.value);
          var comma := MatchToken(Comma);
          if !comma || G.Check(tokens, current, RightBrace) {
            GS.FieldsEnd(tokens, q, current, fields);
            return G.Success(fields, current);
          }
          GS.FieldsNext(tokens, q, current, fields);
      }
      r := G.Success(fields, current);
    }

    /** One entry of an object literal: a name, `=` and a value. */
    method FieldEntry() returns (r: G.Parsed<A.Field>)
      requires G.Terminated(tokens) && current < |tokens|
      modifies this
      ensures G.Terminated(tokens) && current < |tokens| && r == G.FieldEntry(tokens, old(current))
      ensures r.Success? ==> current == r.next
      decreases |tokens| - current, 34
    {
      var name := ConsumeIdentifier(G.FieldName);
      if name.Failure? {
        return G.Failure(name.error);
      }
      var equal := Consume(Equal, G.FieldEqual);
      if equal.Failure? {
        return G.Failure(equal.error);
      }
      var value := Expression();
      if value.Failure? {
        return G.Failure(value.error);
      }
      r := G.Success(A.Field(name.value, value.value), current);
    }

    /** `array_construction`: after `[`, the elements unless `]` follows at once, and `]`. */
    method ArrayConstruction() returns (r: G.Parsed<A.Expression>)
      requires G.Terminated(tokens) && current < |tokens|
      modifies this
      ensures G.Terminated(tokens) && current < |tokens| && r == G.ArrayConstruction(tokens, old(current))
      ensures r.Success? ==> current == r.next
      decreases |tokens| - current, 35
    {
      var elements: seq<A.Expression> := [];
      if !G.Check(tokens, current, RightBracket) {
        var list := Elements();
        if list.Failure? {
          return G.Failure(list.error);
        }
        elements := list.value;
      }
      var close := Consume(RightBracket, G.ElementsClose);
      if close.Failure? {
        return G.Failure(close.error);
      }
      r := G.Success(A.ArrayConstruction(elements), current);
    }

    /** The element loop of `array_construction`: expressions separated by `,`, a trailing `,` allowed. */
    method Elements() returns (r: G.Parsed<seq<A.Expression>>)
      requires G.Terminated(tokens) && current < |tokens|
      modifies this
      ensures G.Terminated(tokens) && current < |tokens| && r == G.Elements(tokens, old(current), [])
      ensures r.Success? ==> current == r.next
      decreases |tokens| - current, 33
    {
      var elements: seq<A.Expression> := [];
      while true
        invariant G.Terminated(tokens) && current < |tokens| && old(current) <= current
        invariant G.Elements(tokens, old(current), []) == G.Elements(tokens, current, elements)
        decreases |tokens| - current
      {
        ghost var before := current;
        var element := Expression();
        match element
        case Failure(e) =>
          return G.Failure(e);
        case Success(v, q) =>
          GS.ElementsEntry(tokens, before, elements, v, q);
          elements := elements + [v];
          var comma := MatchToken(Comma);
          if !comma || G.Check(tokens, current, RightBracket) {
            GS.ElementsEnd(tokens, q, current, elements);
            return G.Success(elements, current);
          }
          GS.ElementsNext(tokens, q, current, elements);
      }
    }
  }
}
