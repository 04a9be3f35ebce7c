/**
 * The typed syntax tree the code generator consumes: Jepeto's static types,
 * expressions and statements as closed datatypes (one constructor per AST node
 * class the generator visits).
 */
module Ast {

  /** Static types reported by the type checker; a function-pointer type names its function. */
  datatype Type =
    | IntType
    | BoolType
    | StringType
    | ListType(elementType: Type)
    | FptrType(functionName: string)
    | VoidType

  datatype BinaryOperator = Add | Sub | Mult | Div | Eq | Neq | And | Or | Lt | Gt | Append

  datatype UnaryOperator = Not | Minus

  datatype Expression =
    | Binary(op: BinaryOperator, left: Expression, right: Expression)
    | Unary(uop: UnaryOperator, operand: Expression)
    | Identifier(name: string)
      /** An anonymous function is registered in the symbol table under a generated name. */
    | AnonymousFunction(fname: string)
    | ListAccessByIndex(instance: Expression, index: Expression)
    | ListSize(list: Expression)
      /** Positional arguments, and keyword arguments in the call site's key order. */
    | FunctionCall(callee: Expression, args: seq<Expression>, argsWithKey: seq<(string, Expression)>)
    | ListValue(elements: seq<Expression>)
    | IntValue(intConstant: int)
    | BoolValue(boolConstant: bool)
    | StringValue(stringConstant: string)
    | VoidValue

  datatype Statement =
    | Block(statements: seq<Statement>)
    | Conditional(condition: Expression, thenBody: Statement, elseBody: ElseBody)
      /** A call used as a statement; its parts are those of the call expression. */
    | FunctionCallStmt(fcallee: Expression, fargs: seq<Expression>, fargsWithKey: seq<(string, Expression)>)
    | Print(arg: Expression)
    | Return(returnedExpr: Expression)

  /** The optional else branch of a conditional (`null` in the source when absent). */
  datatype ElseBody = NoElse | Else(body: Statement)
}
