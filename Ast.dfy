/** The syntax tree built by backend/src/parser.js and read by the type checker and the IR
    generator. Expression nodes keep no line numbers: the source stores them only for error
    messages. */
module Ast {
  import opened Outcomes

  /** A type annotation: `{kind: "primitive" | "array" | "union" | "alias"}`. */
  datatype Type =
    | Primitive(name: string)
    | ArrayOf(elementType: Type)
    | Union(types: seq<Type>)
    | Alias(name: string)

  datatype Expr =
    | NumberLit(text: string)
    | StringLit(text: string)
    | Ident(name: string)
    | Member(obj: Expr, property: string)
    | Call(callee: Expr, arguments: seq<Expr>)
    | Binary(operator: string, left: Expr, right: Expr)

  /** An element of a declaration's argument list: a typed parameter, or any expression. */
  datatype Arg =
    | Parameter(name: string, paramType: Type)
    | ExprArg(expr: Expr)

  /** A statement of a function body. */
  datatype Stmt =
    | ReturnStatement(expression: Expr)
    | ExpressionStatement(expression: Expr)

  /** A top-level node. `body` is None for a declaration ended by `;`. */
  datatype Node =
    | TypeAlias(alias: string, typeAnnotation: Type, line: int)
    | FunctionDeclaration(name: string, arguments: seq<Arg>, returnType: Type,
                          body: Option<seq<Stmt>>, line: int)
    | TopExpression(expression: Expr, returnType: Type, line: int)
}
