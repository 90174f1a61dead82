/**
 * Tokens and syntax tree of the TypeScript front end.
 *
 * The token kinds and the node shapes are those the recursive-descent parser
 * (typescript/parser.ts) reads and builds; the lexer and AST source files that
 * declare them are not part of this model, so only the constructors and fields
 * the parser uses are declared.
 */
module Ast {
  import opened Wrappers

  /** The token kinds the parser distinguishes. */
  datatype TokenType =
    | Let
    | Const
    | Identifier
    | Semicolon
    | Equals
    | OpenBrace
    | CloseBrace
    | Comma
    | Colon
    | BinaryOperator
    | Number
    | Null
    | OpenParen
    | CloseParen

  /** A token: its kind and the source text it was made from. */
  datatype Token = Token(kind: TokenType, value: string)

  /**
   * Expression nodes. A numeric literal keeps the token text that the source
   * hands to `parseFloat`; floating-point conversion is not modelled.
   */
  datatype Expr =
    | AssignmentExpr(assignee: Expr, value: Expr)
    | BinaryExpr(operator: string, left: Expr, right: Expr)
    | ObjectLiteral(properties: seq<Property>)
    | Identifier(symbol: string)
    | NumericLiteral(text: string)
    | NullLiteral

  /** An object-literal property; `value` is `None` for the shorthand `{ key }`. */
  datatype Property = Property(key: string, value: Option<Expr>)

  /**
   * Statements. In the source every expression is also a statement;
   * `ExprStmt` makes that inclusion explicit.
   */
  datatype Stmt =
    | VarDeclaration(identifier: string, constant: bool, init: Option<Expr>)
    | ExprStmt(expr: Expr)

  /** The parse root: the statements in source order. */
  datatype Program = Program(body: seq<Stmt>)

  /** The name of a token kind as it appears in an "Unexpected token" message. */
  function KindName(k: TokenType): string
  {
    match k
    case Let => "Let"
    case Const => "Const"
    case Identifier => "Identifier"
    case Semicolon => "Semicolon"
    case Equals => "Equals"
    case OpenBrace => "OpenBrace"
    case CloseBrace => "CloseBrace"
    case Comma => "Comma"
    case Colon => "Colon"
    case BinaryOperator => "BinaryOperator"
    case Number => "Number"
    case Null => "Null"
    case OpenParen => "OpenParen"
    case CloseParen => "CloseParen"
  }
}
