/**
 * The part of a parsed Go syntax tree that the rotation detector looks at.
 * Statements and expressions keep only what tells one kind apart from
 * another, the identifier names and positions, and the statements nested
 * inside them (so that a walk over the tree reaches every block).
 */
module GoAst {
  /** A source position, an opaque offset produced by the parser (token.Pos). */
  type Pos = int

  /** An expression: a bare identifier, or anything else (call, literal,
      selector, index, composite, ...). `nested` lists, in walk order,
      the statements inside the expression, such as the body of a
      function literal. */
  datatype Expr =
    | Ident(name: string, namePos: Pos)
    | NonIdent(nested: seq<Stmt>)

  /** The operator token of an assignment statement. */
  datatype AssignTok = PlainAssign | Define | OpAssign(op: string)

  /** An assignment statement `lhs tok rhs`. */
  datatype AssignStmt = AssignStmt(lhs: seq<Expr>, tok: AssignTok, rhs: seq<Expr>)

  /** A statement: an assignment, a block `{ ... }`, or any other statement
      with the statements it contains, in walk order (for example the body
      and the else branch of an `if`). */
  datatype Stmt =
    | Assign(assign: AssignStmt)
    | Block(list: seq<Stmt>)
    | Other(children: seq<Stmt>)
}
