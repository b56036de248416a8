/**
 * The syntax tree the parser builds and the evaluator walks.
 *
 * The shape follows what `parser.rs` constructs and what `interpreter.rs`
 * matches on (field, method and index access, `break`, `continue`), which is
 * a later shape than the declarations in `ast.rs`.
 */
module Ast {
  import opened Wrappers

  datatype BinaryOp =
    | Add | Subtract | Multiply | Divide | Modulo
    | Equal | NotEqual | Less | LessEqual | Greater | GreaterEqual
    | And | Or

  datatype UnaryOp = Negate | Not

  /** `: A + B.C` — the `+`-separated, dot-joined type names; None without a colon. */
  type Annotation = Option<seq<string>>

  datatype Parameter = Parameter(name: string, annotation: Annotation)

  datatype MethodSignature = MethodSignature(name: string, params: seq<Parameter>, returnType: Annotation)

  datatype MethodDeclaration = MethodDeclaration(signature: MethodSignature, body: seq<Statement>)

  datatype Statement =
    | ObjectDecl(name: string, annotation: Annotation, methods: seq<MethodDeclaration>)
    | TraitDecl(name: string, annotation: Annotation, signatures: seq<MethodSignature>)
    | VarDecl(name: string, annotation: Annotation, initializer: Expression)
    | While(condition: Expression, body: seq<Statement>)
    | For(variable: string, iterable: Expression, body: seq<Statement>)
    | If(condition: Expression, thenBranch: seq<Statement>, elseBranch: Option<seq<Statement>>)
    | Break
    | Continue
    | Return(result: Option<Expression>)
    | ExpressionStmt(expr: Expression)

  /** One `name = value` entry of an object literal. */
  datatype Field = Field(name: string, value: Expression)

  datatype Expression =
    | Call(callee: Expression, arguments: seq<Expression>)
    | Binary(left: Expression, op: BinaryOp, right: Expression)
    | Unary(uop: UnaryOp, operand: Expression)
    | MethodAccess(receiver: Expression, member: string, arguments: seq<Expression>)
    | FieldAccess(receiver: Expression, member: string)
    | ArrayAccess(indexed: Expression, index: Expression)
    | Assignment(target: Expression, value: Expression)
    | ObjectConstruction(typeName: Option<string>, fields: seq<Field>)
    | ArrayConstruction(elements: seq<Expression>)
    | Identifier(name: string)
    | StringLiteral(lexeme: string)
    | NumberLiteral(lexeme: string)
    | BoolLiteral(b: bool)
    | Null
}
