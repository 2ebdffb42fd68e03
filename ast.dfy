/**
 * The syntax tree the parser of src/ast/mod.rs builds:
 * Module -> Function -> Statement -> Expression.
 *
 * Names and literal values are the source text a token's range covers.
 * The `Rc` around an `Operation` shares nothing, so the tree is a plain
 * value here.
 */
module Ast {
  import opened Results
  import Tokens

  datatype BinaryOperationTy = Addition | Greater | Assignment

  /** A literal keeps its source text and the type its token carried. */
  datatype Literal = Lit(value: string, ty: Tokens.PrimitiveTy)

  datatype Operation = Binary(left: Expression, ty: BinaryOperationTy, right: Expression)

  datatype Expression =
    | Variable(name: string)
    | Literal(literal: Literal)
    | Operation(operation: Operation)

  datatype ControlFlow = If(condition: Expression, body: seq<Statement>)

  datatype Statement =
    | Declaration(name: string, expression: Expression)
    | Expression(expression: Expression)
    | ControlFlow(flow: ControlFlow)

  /** `arguments` is a vector of unit values in the source; the parser always leaves it empty. */
  datatype Function = Func(name: string, arguments: seq<()>, returnType: Option<string>, body: seq<Statement>)

  datatype Module = Module(functions: seq<Function>)

  /** The expression contains no assignment anywhere. */
  predicate NoAssignment(e: Expression) {
    match e
    case Variable(_) => true
    case Literal(_) => true
    case Operation(Binary(l, ty, r)) => ty != Assignment && NoAssignment(l) && NoAssignment(r)
  }
}
