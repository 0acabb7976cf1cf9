/** The abstract syntax tree of nuPython (ast.hpp): closed tagged variants for
    statements and expressions. A statement block, which the original links
    through `next`, is a finite sequence of statements. */
module Ast {

  /** AST_BINARY_EXPR_OPERATORS, in declaration order (PLUS = 0). */
  datatype BinaryOp =
    | Plus | Minus | Mult | Power | Mod | Div
    | Equal | NotEqual | Lt | Lte | Gt | Gte | Is | In

  /** AST_UNARY_EXPR_TYPES, in declaration order (DEREF_PTR = 0). */
  datatype UnaryKind =
    | DerefPtr | AddressOfVar | VariableAccess
    | IntLiteral | RealLiteral | StrLiteral
    | TrueLiteral | FalseLiteral | NoneLiteral

  /** AST_EXPR_TYPES (FUNCTION_CALL_EXPR = 0). */
  datatype ExprKind = FunctionCallExprKind | UnaryExprKind | BinaryExprKind

  /** AST_STMT_TYPES (ASSIGNMENT = 0). */
  datatype StmtKind =
    | AssignmentKind | DerefPtrAssignmentKind | FunctionCallKind
    | IfThenElseKind | WhileLoopKind | PassKind

  /** A unary expression carries one string: a literal's text or a variable's name. */
  datatype UnaryExpr = UnaryExpr(kind: UnaryKind, text: string)

  /** An expression. A binary expression holds exactly one unary operand on
      each side, so binary expressions never nest. */
  datatype Expr =
    | FunctionCallExpr(functionName: string, param: Expr)
    | Unary(unary: UnaryExpr)
    | Binary(lhs: UnaryExpr, op: BinaryOp, rhs: UnaryExpr)

  /** A statement. Bodies and the elif/else chain are owned statement blocks;
      an absent chain is the empty block. */
  datatype Stmt =
    | Assignment(variableName: string, expr: Expr)
    | DerefPtrAssignment(variableName: string, expr: Expr)
    | FunctionCall(functionName: string, param: Expr)
    | IfThenElse(condition: Expr, body: seq<Stmt>, elifElseChain: seq<Stmt>)
    | WhileLoop(condition: Expr, body: seq<Stmt>)
    | Pass

  function KindOfExpr(e: Expr): ExprKind
  {
    match e
    case FunctionCallExpr(_, _) => FunctionCallExprKind
    case Unary(_) => UnaryExprKind
    case Binary(_, _, _) => BinaryExprKind
  }

  function KindOfStmt(s: Stmt): StmtKind
  {
    match s
    case Assignment(_, _) => AssignmentKind
    case DerefPtrAssignment(_, _) => DerefPtrAssignmentKind
    case FunctionCall(_, _) => FunctionCallKind
    case IfThenElse(_, _, _) => IfThenElseKind
    case WhileLoop(_, _) => WhileLoopKind
    case Pass => PassKind
  }

  /** The enumerators' underlying values: 0 to 13. */
  function OpCode(op: BinaryOp): (n: nat)
    ensures n < 14
  {
    match op
    case Plus => 0 case Minus => 1 case Mult => 2 case Power => 3
    case Mod => 4 case Div => 5 case Equal => 6 case NotEqual => 7
    case Lt => 8 case Lte => 9 case Gt => 10 case Gte => 11
    case Is => 12 case In => 13
  }

  /** Every value below 14 names exactly one operator. */
  function OpOfCode(n: nat): (op: BinaryOp)
    requires n < 14
    ensures OpCode(op) == n
  {
    [Plus, Minus, Mult, Power, Mod, Div, Equal, NotEqual, Lt, Lte, Gt, Gte, Is, In][n]
  }

  function UnaryCode(k: UnaryKind): (n: nat)
    ensures n < 9
  {
    match k
    case DerefPtr => 0 case AddressOfVar => 1 case VariableAccess => 2
    case IntLiteral => 3 case RealLiteral => 4 case StrLiteral => 5
    case TrueLiteral => 6 case FalseLiteral => 7 case NoneLiteral => 8
  }

  function UnaryOfCode(n: nat): (k: UnaryKind)
    requires n < 9
    ensures UnaryCode(k) == n
  {
    [DerefPtr, AddressOfVar, VariableAccess, IntLiteral, RealLiteral, StrLiteral,
     TrueLiteral, FalseLiteral, NoneLiteral][n]
  }

  function ExprCode(k: ExprKind): (n: nat)
    ensures n < 3
  {
    match k
    case FunctionCallExprKind => 0 case UnaryExprKind => 1 case BinaryExprKind => 2
  }

  function ExprOfCode(n: nat): (k: ExprKind)
    requires n < 3
    ensures ExprCode(k) == n
  {
    [FunctionCallExprKind, UnaryExprKind, BinaryExprKind][n]
  }

  function StmtCode(k: StmtKind): (n: nat)
    ensures n < 6
  {
    match k
    case AssignmentKind => 0 case DerefPtrAssignmentKind => 1 case FunctionCallKind => 2
    case IfThenElseKind => 3 case WhileLoopKind => 4 case PassKind => 5
  }

  function StmtOfCode(n: nat): (k: StmtKind)
    requires n < 6
    ensures StmtCode(k) == n
  {
    [AssignmentKind, DerefPtrAssignmentKind, FunctionCallKind,
     IfThenElseKind, WhileLoopKind, PassKind][n]
  }

  /** The codes are injective: the four enums have exactly 14, 9, 3 and 6 members. */
  lemma CodesAreInjective()
    ensures forall a: BinaryOp, b: BinaryOp :: OpCode(a) == OpCode(b) ==> a == b
    ensures forall a: UnaryKind, b: UnaryKind :: UnaryCode(a) == UnaryCode(b) ==> a == b
    ensures forall a: ExprKind, b: ExprKind :: ExprCode(a) == ExprCode(b) ==> a == b
    ensures forall a: StmtKind, b: StmtKind :: StmtCode(a) == StmtCode(b) ==> a == b
  {
    forall a: BinaryOp ensures OpOfCode(OpCode(a)) == a { }
    forall a: UnaryKind ensures UnaryOfCode(UnaryCode(a)) == a { }
    forall a: ExprKind ensures ExprOfCode(ExprCode(a)) == a { }
    forall a: StmtKind ensures StmtOfCode(StmtCode(a)) == a { }
  }

  /** Size measures used to bound recursion over statement trees. */
  function StmtSize(s: Stmt): (n: nat)
    ensures n >= 1
  {
    match s
    case WhileLoop(_, body) => 1 + BlockSize(body)
    case IfThenElse(_, body, chain) => 1 + BlockSize(body) + BlockSize(chain)
    case _ => 1
  }

  function BlockSize(b: seq<Stmt>): (n: nat)
    ensures n >= 1
  {
    if b == [] then 1 else StmtSize(b[0]) + BlockSize(b[1..])
  }

  /** Every statement of a block is smaller than the block, so a walk that
      descends into a statement's body always makes progress. */
  lemma {:induction false} StmtSmallerThanBlock(b: seq<Stmt>, i: nat)
    requires i < |b|
    ensures StmtSize(b[i]) < BlockSize(b)
  {
    if i > 0 {
      StmtSmallerThanBlock(b[1..], i - 1);
      assert b[1..][i - 1] == b[i];
    }
  }
}
