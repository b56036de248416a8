/**
 * What the grammar of `parser.rs` promises: how operators associate and
 * nest, where lists may end, what the cursor does at the end of the
 * tokens, and how object fields behave as a map.
 */
module GrammarFacts {
  import opened Wrappers
  import opened Tokens
  import A = Ast
  import opened Grammar
  import GS = GrammarSteps

  /** Applying the operators from the last to the first, as `unary` does, builds the same tree as `Wrap`. */
  lemma {:induction false} WrapLast(ops: seq<A.UnaryOp>, operand: A.Expression)
    requires |ops| > 0
    ensures Wrap(ops, operand) == Wrap(ops[..|ops| - 1], A.Unary(ops[|ops| - 1], operand))
    decreases |ops|
  {
    if |ops| > 1 {
      WrapLast(ops[1..], operand);
      assert ops[1..][..|ops[1..]| - 1] == ops[..|ops| - 1][1..];
    }
  }


  // ------------------------------------------------------------- binary levels

  /** The operator and operand pairs after the first operand of a level, in the order they are written. */
  function Chain(ts: seq<Token>, p: nat, level: nat): (r: Parsed<seq<(A.BinaryOp, A.Expression)>>)
    requires Terminated(ts) && p < |ts| && level <= Tightest
    ensures r.Success? ==> p <= r.next < |ts| && OperatorAt(ts, r.next, level).None?
    decreases |ts| - p
  {
    match OperatorAt(ts, p, level)
    case None => Success([], p)
    case Some(op) =>
      match Operand(ts, p + 1, level)
      case Failure(e) => Failure(e)
      case Success(right, q) =>
        match Chain(ts, q, level)
        case Failure(e) => Failure(e)
        case Success(rest, q') => Success([(op, right)] + rest, q')
  }

  /** The tree the pairs build on `left`: each operator takes the whole tree so far as its left operand. */
  function FoldLeft(left: A.Expression, pairs: seq<(A.BinaryOp, A.Expression)>): A.Expression
    decreases |pairs|
  {
    if |pairs| == 0 then left else FoldLeft(A.Binary(left, pairs[0].0, pairs[0].1), pairs[1..])
  }

  function FoldChain(left: A.Expression, chain: Parsed<seq<(A.BinaryOp, A.Expression)>>): Parsed<A.Expression>
  {
    match chain
    case Failure(e) => Failure(e)
    case Success(pairs, q) => Success(FoldLeft(left, pairs), q)
  }

  /** Left associativity: the operator written last is the root, and its left operand is the tree of all before it. */
  lemma {:induction false} FoldLeftLast(left: A.Expression, pairs: seq<(A.BinaryOp, A.Expression)>, op: A.BinaryOp, right: A.Expression)
    ensures FoldLeft(left, pairs + [(op, right)]) == A.Binary(FoldLeft(left, pairs), op, right)
    decreases |pairs|
  {
    if |pairs| > 0 {
      assert (pairs + [(op, right)])[1..] == pairs[1..] + [(op, right)];
      FoldLeftLast(A.Binary(left, pairs[0].0, pairs[0].1), pairs[1..], op, right);
    }
  }

  /** The loop of every binary level builds the left fold of the operator and operand pairs it reads. */
  lemma {:induction false} TailIsFold(ts: seq<Token>, p: nat, level: nat, left: A.Expression)
    requires Terminated(ts) && p < |ts| && level <= Tightest
    ensures BinaryTail(ts, p, level, left) == FoldChain(left, Chain(ts, p, level))
    decreases |ts| - p
  {
    match OperatorAt(ts, p, level)
    case None =>
    case Some(op) =>
      match Operand(ts, p + 1, level)
      case Failure(e) =>
      case Success(right, q) =>
        TailIsFold(ts, q, level, A.Binary(left, op, right));
        match Chain(ts, q, level)
        case Failure(e) =>
        case Success(rest, q') =>
          assert ([(op, right)] + rest)[1..] == rest;
  }

  /** Each binary operator token belongs to exactly one level. */
  lemma LevelsDisjoint(level: nat, other: nat, kind: TokenType)
    requires LevelOperator(level, kind).Some? && LevelOperator(other, kind).Some?
    ensures level == other && LevelOperator(level, kind) == LevelOperator(other, kind)
  {
  }

  // ---------------------------------------------------------------- assignment

  /** The `||` expressions of an assignment chain, split at each `=`; the last one is the assigned value. */
  function Targets(ts: seq<Token>, p: nat): (r: Parsed<seq<A.Expression>>)
    requires Terminated(ts) && p < |ts|
    ensures r.Success? ==> |r.value| > 0 && p <= r.next < |ts|
    decreases |ts| - p
  {
    match BinaryLevel(ts, p, 0)
    case Failure(e) => Failure(e)
    case Success(first, q) =>
      if !Check(ts, q, Equal) then Success([first], q)
      else
        match Targets(ts, q + 1)
        case Failure(e) => Failure(e)
        case Success(rest, q') => Success([first] + rest, q')
  }

  /** Assignments nest to the right: each target takes everything after its `=` as its value. */
  function FoldRight(targets: seq<A.Expression>): A.Expression
    requires |targets| > 0
    decreases |targets|
  {
    if |targets| == 1 then targets[0] else A.Assignment(targets[0], FoldRight(targets[1..]))
  }

  /** `assignment` builds the right fold of its chain: `a = b = c` is `a = (b = c)`, whatever `a` and `b` are. */
  lemma {:induction false} AssignmentIsFold(ts: seq<Token>, p: nat)
    requires Terminated(ts) && p < |ts|
    ensures var t := Targets(ts, p);
      (t.Failure? ==> Assignment(ts, p) == Failure(t.error))
      && (t.Success? ==> Assignment(ts, p) == Success(FoldRight(t.value), t.next))
    decreases |ts| - p
  {
    match BinaryLevel(ts, p, 0)
    case Failure(e) =>
    case Success(first, q) =>
      if Check(ts, q, Equal) {
        AssignmentIsFold(ts, q + 1);
        match Targets(ts, q + 1)
        case Failure(e) =>
        case Success(rest, q') =>
          assert ([first] + rest)[1..] == rest;
      }
  }

  // --------------------------------------------------------------------- unary

  /**
   * `unary` read as a recursion: a prefix operator applies to the unary
   * expression after it, so the first operator written is the outermost node.
   */
  lemma UnaryOutermost(ts: seq<Token>, p: nat)
    requires Terminated(ts) && p < |ts|
    ensures PrefixOperator(ts[p].kind).Some? ==>
      p + 1 < |ts| && Unary(ts, p) == Applied([PrefixOperator(ts[p].kind).value], Unary(ts, p + 1))
    ensures PrefixOperator(ts[p].kind).None? ==> Unary(ts, p) == Postfix(ts, p)
  {
    if PrefixOperator(ts[p].kind).Some? {
      var op := PrefixOperator(ts[p].kind).value;
      var rest := Prefixes(ts, p + 1);
      var q := p + 1 + |rest|;
      GS.PrefixesCons(ts, p, op, rest);
      GS.UnaryStep(ts, p, [op] + rest, q);
      GS.UnaryStep(ts, p + 1, rest, q);
      AppliedCons(op, rest, Postfix(ts, q));
    } else {
      GS.PrefixesNone(ts, p);
      GS.UnaryStep(ts, p, [], p);
    }
  }

  lemma AppliedCons(op: A.UnaryOp, rest: seq<A.UnaryOp>, operand: Parsed<A.Expression>)
    ensures Applied([op] + rest, operand) == Applied([op], Applied(rest, operand))
  {
    match operand
    case Failure(e) =>
    case Success(v, q) =>
      assert ([op] + rest)[1..] == rest;
      assert Wrap([op] + rest, v) == A.Unary(op, Wrap(rest, v));
      assert [op][1..] == [];
      assert Wrap([op], Wrap(rest, v)) == A.Unary(op, Wrap([], Wrap(rest, v)));
  }

  // ------------------------------------------------------------------- postfix

  /** `e` is `primary` itself, or a call, member access or index whose inner expression is `primary`. */
  predicate OneSuffix(primary: A.Expression, e: A.Expression)
  {
    e == primary || (e.Call? && e.callee == primary)
    || ((e.MethodAccess? || e.FieldAccess?) && e.receiver == primary)
    || (e.ArrayAccess? && e.indexed == primary)
  }

  /** A postfix expression is its primary with at most one call, member access or index applied to it. */
  lemma PostfixOnce(ts: seq<Token>, p: nat)
    requires Terminated(ts) && p < |ts|
    ensures Postfix(ts, p).Success? ==> Primary(ts, p).Success?
    ensures Postfix(ts, p).Success? ==> OneSuffix(Primary(ts, p).value, Postfix(ts, p).value)
  {
  }

  // --------------------------------------------------------- where expressions start

  /** The tokens an expression can start with. */
  predicate Starter(kind: TokenType)
  {
    kind in {Identifier, StringLiteral, NumberLiteral, True, False, Null, LeftBrace, LeftBracket, LeftParen, Bang, Minus}
  }

  /**
   * An expression that parses starts with a starter token, or is read at the
   * end, where `advance` stays put and hands back the token before it.
   */
  lemma ExpressionStart(ts: seq<Token>, p: nat)
    requires Terminated(ts) && p < |ts|
    ensures Expression(ts, p).Success? ==> IsAtEnd(ts, p) || Starter(ts[p].kind)
  {
    LevelStart(ts, p, 0);
    assert Expression(ts, p) == Assignment(ts, p);
    if BinaryLevel(ts, p, 0).Failure? {
      assert Assignment(ts, p).Failure?;
    }
  }

  lemma {:induction false} LevelStart(ts: seq<Token>, p: nat, level: nat)
    requires Terminated(ts) && p < |ts| && level <= Tightest
    ensures BinaryLevel(ts, p, level).Success? ==> IsAtEnd(ts, p) || Starter(ts[p].kind)
    decreases Tightest - level
  {
    if level < Tightest {
      LevelStart(ts, p, level + 1);
      assert Operand(ts, p, level) == BinaryLevel(ts, p, level + 1);
      if BinaryLevel(ts, p, level + 1).Failure? {
        assert BinaryLevel(ts, p, level).Failure?;
      }
    } else {
      UnaryOutermost(ts, p);
      PrimaryStart(ts, p);
      assert Operand(ts, p, level) == Unary(ts, p);
      if Unary(ts, p).Failure? {
        assert BinaryLevel(ts, p, level).Failure?;
      }
    }
  }

  lemma PrimaryStart(ts: seq<Token>, p: nat)
    requires Terminated(ts) && p < |ts|
    ensures Postfix(ts, p).Success? ==> IsAtEnd(ts, p) || Starter(ts[p].kind)
  {
    if Postfix(ts, p).Success? && !IsAtEnd(ts, p) && !SequenceAt(ts, p, [Identifier, LeftBrace])
      && !Check(ts, p, LeftBrace) && !Check(ts, p, LeftBracket) && !Check(ts, p, LeftParen)
    {
      assert Primary(ts, p) == Atom(ts, p);
      assert Atom(ts, p).Success?;
      assert Advance(ts, p) == Success(ts[p], p + 1);
    }
  }

  // ------------------------------------------------------------- trailing commas

  /** `[e,]` is the one-element array `[e]`: a comma right before `]` is accepted. */
  lemma ArrayTrailingComma(ts: seq<Token>, p: nat, e: A.Expression, q: nat, close: nat)
    requires Terminated(ts) && p < |ts| && Expression(ts, p) == Success(e, q)
    requires close == q + 1 < |ts| && Check(ts, q, Comma) && Check(ts, close, RightBracket)
    ensures ArrayConstruction(ts, p) == Success(A.ArrayConstruction([e]), close + 1)
  {
    ExpressionStart(ts, p);
    var elements := [] + [e];
    assert elements == [e];
    GS.ElementsEntry(ts, p, [], e, q);
    GS.ElementsEnd(ts, q, close, elements);
    GS.ArrayClose(ts, p, elements, close);
  }

  /** `{name = e,}` has the single field `name`: a comma right before `}` is accepted. */
  lemma ObjectTrailingComma(ts: seq<Token>, p: nat, entry: A.Field, q: nat, close: nat)
    requires Terminated(ts) && p < |ts| && FieldEntry(ts, p) == Success(entry, q)
    requires close == q + 1 < |ts| && Check(ts, q, Comma) && Check(ts, close, RightBrace)
    ensures FieldList(ts, p) == Success([entry], close + 1)
  {
    var fields := Insert([], entry.name, entry.value);
    assert fields == [entry];
    GS.FieldsEntry(ts, p, [], entry, q);
    GS.FieldsEnd(ts, q, close, fields);
    GS.FieldListClose(ts, p, fields, close);
  }

  /** Arguments take no trailing comma, and `x.f()` does not parse: the argument list after a method name is not optional. */
  lemma MethodCallNeedsArgument(ts: seq<Token>, p: nat, receiver: A.Expression)
    requires Terminated(ts) && p + 2 < |ts|
    requires ts[p].kind == Identifier && ts[p + 1].kind == LeftParen && ts[p + 2].kind == RightParen
    ensures Member(ts, p, receiver).Failure?
  {
    ExpressionStart(ts, p + 2);
  }

  // --------------------------------------------------------------- object fields

  /** The names of the fields. */
  function Names(fields: seq<A.Field>): set<string>
  {
    set i | 0 <= i < |fields| :: fields[i].name
  }

  /** A repeated name keeps its place and takes the last value; other names are untouched. */
  lemma {:induction false} InsertLookup(fields: seq<A.Field>, name: string, value: A.Expression, other: string)
    ensures Lookup(Insert(fields, name, value), other) == if other == name then Some(value) else Lookup(fields, other)
    decreases |fields|
  {
    if |fields| > 0 && fields[0].name != name {
      InsertLookup(fields[1..], name, value, other);
      assert ([fields[0]] + Insert(fields[1..], name, value))[1..] == Insert(fields[1..], name, value);
    }
  }

  /** Inserting adds the name and no other. */
  lemma {:induction false} InsertNames(fields: seq<A.Field>, name: string, value: A.Expression)
    ensures Names(Insert(fields, name, value)) == Names(fields) + {name}
    decreases |fields|
  {
    var r := Insert(fields, name, value);
    if |fields| == 0 {
      assert r == [A.Field(name, value)];
      assert Names(r) == {name} by { assert r[0].name == name; }
    } else {
      Split(r);
      Split(fields);
      if fields[0].name == name {
        assert r[1..] == fields[1..];
      } else {
        InsertNames(fields[1..], name, value);
        assert r[1..] == Insert(fields[1..], name, value);
      }
    }
  }

  lemma Split(fields: seq<A.Field>)
    requires |fields| > 0
    ensures Names(fields) == {fields[0].name} + Names(fields[1..])
  {
    forall n | n in Names(fields) ensures n in {fields[0].name} + Names(fields[1..])
    {
      var i :| 0 <= i < |fields| && fields[i].name == n;
      if i > 0 { assert fields[1..][i - 1].name == n; }
    }
    forall n | n in Names(fields[1..]) ensures n in Names(fields)
    {
      var i :| 0 <= i < |fields[1..]| && fields[1..][i].name == n;
      assert fields[i + 1].name == n;
    }
  }

  /** Inserting into fields with distinct names keeps them distinct. */
  lemma {:induction false} InsertUnique(fields: seq<A.Field>, name: string, value: A.Expression)
    requires UniqueNames(fields)
    ensures UniqueNames(Insert(fields, name, value))
    decreases |fields|
  {
    if |fields| > 0 && fields[0].name != name {
      var rest := Insert(fields[1..], name, value);
      InsertUnique(fields[1..], name, value);
      InsertNames(fields[1..], name, value);
      Split(fields);
      ConsUnique(fields[0], rest);
    } else if |fields| > 0 {
      ReplaceUnique(fields, name, value);
    }
  }

  lemma ConsUnique(first: A.Field, rest: seq<A.Field>)
    requires UniqueNames(rest) && first.name !in Names(rest)
    ensures UniqueNames([first] + rest)
  {
    var r := [first] + rest;
    forall i, j | 0 <= i < j < |r| ensures r[i].name != r[j].name
    {
      assert r[j] == rest[j - 1];
      if i > 0 { assert r[i] == rest[i - 1]; }
    }
  }

  lemma ReplaceUnique(fields: seq<A.Field>, name: string, value: A.Expression)
    requires UniqueNames(fields) && |fields| > 0 && fields[0].name == name
    ensures UniqueNames([A.Field(name, value)] + fields[1..])
  {
    var r := [A.Field(name, value)] + fields[1..];
    forall i, j | 0 <= i < j < |r| ensures r[i].name != r[j].name
    {
      assert r[j] == fields[j];
      if i > 0 { assert r[i] == fields[i]; }
    }
  }

  /** The fields an object literal gives have distinct names, as the map the source builds. */
  lemma FieldListUnique(ts: seq<Token>, p: nat)
    requires Terminated(ts) && p < |ts|
    ensures FieldList(ts, p).Success? ==> UniqueNames(FieldList(ts, p).value)
  {
    FieldsUnique(ts, p, []);
  }

  lemma {:induction false} FieldsUnique(ts: seq<Token>, p: nat, fields: seq<A.Field>)
    requires Terminated(ts) && p < |ts| && UniqueNames(fields)
    ensures Fields(ts, p, fields).Success? ==> UniqueNames(Fields(ts, p, fields).value)
    decreases |ts| - p, 1
  {
    if !Check(ts, p, RightBrace) {
      match FieldEntry(ts, p)
      case Failure(e) =>
      case Success(entry, q) =>
        InsertUnique(fields, entry.name, entry.value);
        GS.FieldsEntry(ts, p, fields, entry, q);
        AfterEntryUnique(ts, q, Insert(fields, entry.name, entry.value));
    }
  }

  lemma {:induction false} AfterEntryUnique(ts: seq<Token>, p: nat, fields: seq<A.Field>)
    requires Terminated(ts) && p < |ts| && UniqueNames(fields)
    ensures FieldsAfterEntry(ts, p, fields).Success? ==> UniqueNames(FieldsAfterEntry(ts, p, fields).value)
    decreases |ts| - p, 0
  {
    if Check(ts, p, Comma) && !Check(ts, p + 1, RightBrace) {
      var q := p + 1;
      GS.FieldsNext(ts, p, q, fields);
      FieldsUnique(ts, q, fields);
    }
  }

  // -------------------------------------------------------- primary and types

  /** An identifier directly followed by `{` always starts an object construction. */
  lemma IdentifierBrace(ts: seq<Token>, p: nat)
    requires Terminated(ts) && p + 1 < |ts|
    requires Check(ts, p, Identifier) && Check(ts, p + 1, LeftBrace)
    ensures Primary(ts, p) == ObjectConstruction(ts, p)
  {
    assert SequenceAt(ts, p + 2, []);
  }

  /** `: A + B` annotates with the two type names in order. */
  lemma TwoTypes(ts: seq<Token>, p: nat, a: string, q: nat, b: string, q': nat)
    requires Terminated(ts) && p + 1 < |ts| && Check(ts, p, Colon)
    requires TypeIdentifier(ts, p + 1) == Success(a, q) && Check(ts, q, Plus)
    requires q + 1 < |ts| && TypeIdentifier(ts, q + 1) == Success(b, q') && !Check(ts, q', Plus)
    ensures TypeAnnotation(ts, p) == Success(Some([a, b]), q')
  {
    assert [] + [a] == [a] && [a] + [b] == [a, b];
    assert TypesAfter(ts, q', [a, b]) == Success([a, b], q');
    assert TypeList(ts, q + 1, [a]) == Success([a, b], q');
    assert TypesAfter(ts, q, [a]) == Success([a, b], q');
    assert TypeList(ts, p + 1, []) == Success([a, b], q');
  }

  /** `A.B` is the single type name "A.B". */
  lemma DottedType(ts: seq<Token>, p: nat)
    requires Terminated(ts) && p + 3 < |ts|
    requires Check(ts, p, Identifier) && Check(ts, p + 1, Dot) && Check(ts, p + 2, Identifier) && !Check(ts, p + 3, Dot)
    ensures TypeIdentifier(ts, p) == Success(ts[p].lexeme + "." + ts[p + 2].lexeme, p + 3)
  {
    var name := ts[p].lexeme + "." + ts[p + 2].lexeme;
    assert DottedName(ts, p + 3, name) == Success(name, p + 3);
    assert DottedName(ts, p + 1, ts[p].lexeme) == Success(name, p + 3);
  }
}

module GrammarSteps {
  import opened Wrappers
  import opened Tokens
  import A = Ast
  import opened Grammar

  lemma ParametersEntry(ts: seq<Token>, p: nat, params: seq<A.Parameter>, param: A.Parameter, q: nat)
    requires Terminated(ts) && p < |ts| && Parameter(ts, p) == Success(param, q)
    ensures q < |ts| && ParameterList(ts, p, params) == ParametersAfter(ts, q, params + [param])
  {
  }

  lemma ParametersNext(ts: seq<Token>, p: nat, q: nat, params: seq<A.Parameter>)
    requires Terminated(ts) && p < |ts| && Check(ts, p, Comma) && q == p + 1
    ensures q < |ts| && ParametersAfter(ts, p, params) == ParameterList(ts, q, params)
  {
  }

  lemma TypesEntry(ts: seq<Token>, p: nat, types: seq<string>, name: string, q: nat)
    requires Terminated(ts) && p < |ts| && TypeIdentifier(ts, p) == Success(name, q)
    ensures q < |ts| && TypeList(ts, p, types) == TypesAfter(ts, q, types + [name])
  {
  }

  lemma TypesNext(ts: seq<Token>, p: nat, q: nat, types: seq<string>)
    requires Terminated(ts) && p < |ts| && Check(ts, p, Plus) && q == p + 1
    ensures q < |ts| && TypesAfter(ts, p, types) == TypeList(ts, q, types)
  {
  }

  lemma ArgumentsEntry(ts: seq<Token>, p: nat, arguments: seq<A.Expression>, argument: A.Expression, q: nat)
    requires Terminated(ts) && p < |ts| && Expression(ts, p) == Success(argument, q)
    ensures q < |ts| && ArgumentList(ts, p, arguments) == ArgumentsAfter(ts, q, arguments + [argument])
  {
  }

  lemma ArgumentsNext(ts: seq<Token>, p: nat, q: nat, arguments: seq<A.Expression>)
    requires Terminated(ts) && p < |ts| && Check(ts, p, Comma) && q == p + 1
    ensures q < |ts| && ArgumentsAfter(ts, p, arguments) == ArgumentList(ts, q, arguments)
  {
  }

  lemma ElementsEntry(ts: seq<Token>, p: nat, elements: seq<A.Expression>, element: A.Expression, q: nat)
    requires Terminated(ts) && p < |ts| && Expression(ts, p) == Success(element, q)
    ensures q < |ts| && Elements(ts, p, elements) == ElementsAfter(ts, q, elements + [element])
  {
  }

  lemma ElementsNext(ts: seq<Token>, p: nat, q: nat, elements: seq<A.Expression>)
    requires Terminated(ts) && p < |ts| && Check(ts, p, Comma) && q == p + 1 && !Check(ts, q, RightBracket)
    ensures ElementsAfter(ts, p, elements) == Elements(ts, q, elements)
  {
  }

  lemma ElementsEnd(ts: seq<Token>, p: nat, q: nat, elements: seq<A.Expression>)
    requires Terminated(ts) && p < |ts|
    requires (!Check(ts, p, Comma) && q == p) || (Check(ts, p, Comma) && q == p + 1 && Check(ts, q, RightBracket))
    ensures ElementsAfter(ts, p, elements) == Success(elements, q)
  {
  }

  lemma PrefixesStep(ts: seq<Token>, start: nat, ops: seq<A.UnaryOp>, p: nat, q: nat, op: A.UnaryOp)
    requires Terminated(ts) && start < |ts| && p < |ts| && q == p + 1
    requires Check(ts, p, Bang) || Check(ts, p, Minus)
    requires op == if ts[q - 1].kind == Bang then A.Not else A.Negate
    requires Prefixes(ts, start) == ops + Prefixes(ts, p)
    ensures q < |ts| && Prefixes(ts, start) == (ops + [op]) + Prefixes(ts, q)
  {
    assert Prefixes(ts, p) == [op] + Prefixes(ts, q);
    assert ops + ([op] + Prefixes(ts, q)) == (ops + [op]) + Prefixes(ts, q);
  }

  lemma UnaryStep(ts: seq<Token>, p: nat, ops: seq<A.UnaryOp>, q: nat)
    requires Terminated(ts) && p < |ts| && ops == Prefixes(ts, p) && q == p + |ops|
    ensures q < |ts| && Unary(ts, p) == Applied(ops, Postfix(ts, q))
  {
    UnaryUnfold(ts, p);
  }

  lemma PrefixesCons(ts: seq<Token>, p: nat, op: A.UnaryOp, rest: seq<A.UnaryOp>)
    requires Terminated(ts) && p + 1 < |ts| && PrefixOperator(ts[p].kind) == Some(op) && rest == Prefixes(ts, p + 1)
    ensures Prefixes(ts, p) == [op] + rest
  {
  }

  lemma PrefixesNone(ts: seq<Token>, p: nat)
    requires Terminated(ts) && p < |ts| && PrefixOperator(ts[p].kind).None?
    ensures Prefixes(ts, p) == []
  {
  }

  lemma UnaryUnfold(ts: seq<Token>, p: nat)
    requires Terminated(ts) && p < |ts|
    ensures Unary(ts, p) == Applied(Prefixes(ts, p), Postfix(ts, p + |Prefixes(ts, p)|))
  {
  }

  lemma PrimaryBrace(ts: seq<Token>, p: nat, q: nat)
    requires Terminated(ts) && p < |ts| && q == p + 1
    requires !SequenceAt(ts, p, [Identifier, LeftBrace]) && Check(ts, p, LeftBrace)
    ensures Primary(ts, p) == AnonymousObjectConstruction(ts, q)
  {
  }

  lemma PrimaryBracket(ts: seq<Token>, p: nat, q: nat)
    requires Terminated(ts) && p < |ts| && q == p + 1
    requires !SequenceAt(ts, p, [Identifier, LeftBrace]) && !Check(ts, p, LeftBrace) && Check(ts, p, LeftBracket)
    ensures Primary(ts, p) == ArrayConstruction(ts, q)
  {
  }

  lemma PrimaryParen(ts: seq<Token>, p: nat, q: nat)
    requires Terminated(ts) && p < |ts| && q == p + 1
    requires !SequenceAt(ts, p, [Identifier, LeftBrace]) && !Check(ts, p, LeftBrace) && !Check(ts, p, LeftBracket)
    requires Check(ts, p, LeftParen)
    ensures Primary(ts, p) == Group(ts, q)
  {
  }

  lemma SuffixMember(ts: seq<Token>, p: nat, q: nat, e: A.Expression)
    requires Terminated(ts) && p < |ts| && !Check(ts, p, LeftParen) && Check(ts, p, Dot) && q == p + 1
    ensures Suffix(ts, p, e) == Member(ts, q, e)
  {
  }

  lemma SuffixIndex(ts: seq<Token>, p: nat, q: nat, e: A.Expression)
    requires Terminated(ts) && p < |ts| && !Check(ts, p, LeftParen) && !Check(ts, p, Dot) && Check(ts, p, LeftBracket)
    requires q == p + 1
    ensures Suffix(ts, p, e) == Index(ts, q, e)
  {
  }

  lemma FieldsEntry(ts: seq<Token>, p: nat, fields: seq<A.Field>, entry: A.Field, q: nat)
    requires Terminated(ts) && p < |ts| && !Check(ts, p, RightBrace) && FieldEntry(ts, p) == Success(entry, q)
    ensures q < |ts| && Fields(ts, p, fields) == FieldsAfterEntry(ts, q, Insert(fields, entry.name, entry.value))
  {
  }

  lemma FieldsNext(ts: seq<Token>, p: nat, q: nat, fields: seq<A.Field>)
    requires Terminated(ts) && p < |ts| && Check(ts, p, Comma) && q == p + 1 && !Check(ts, q, RightBrace)
    ensures FieldsAfterEntry(ts, p, fields) == Fields(ts, q, fields)
  {
  }

  lemma FieldListClose(ts: seq<Token>, p: nat, fields: seq<A.Field>, q: nat)
    requires Terminated(ts) && p < |ts| && Fields(ts, p, []) == Success(fields, q) && Check(ts, q, RightBrace)
    ensures FieldList(ts, p) == Success(fields, q + 1)
  {
  }

  lemma ArrayClose(ts: seq<Token>, p: nat, elements: seq<A.Expression>, q: nat)
    requires Terminated(ts) && p < |ts| && !Check(ts, p, RightBracket)
    requires Elements(ts, p, []) == Success(elements, q) && Check(ts, q, RightBracket)
    ensures ArrayConstruction(ts, p) == Success(A.ArrayConstruction(elements), q + 1)
  {
  }

  lemma FieldsEnd(ts: seq<Token>, p: nat, q: nat, fields: seq<A.Field>)
    requires Terminated(ts) && p < |ts|
    requires (!Check(ts, p, Comma) && q == p) || (Check(ts, p, Comma) && q == p + 1 && Check(ts, q, RightBrace))
    ensures FieldsAfterEntry(ts, p, fields) == Success(fields, q)
  {
  }
}
