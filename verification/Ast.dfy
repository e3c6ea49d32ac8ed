/** The surface syntax that the compiler and the evaluator share.  Spans are omitted. */
module Ast {
  import opened Wrappers

  datatype BinOp = Add | Sub | Mul | Eq | Ne | Lt | Le | Gt | Ge | And | Or

  datatype UnOp = Not | Neg

  datatype TypeExpr =
    | Named(name: string)
    | OptionalType(inner: TypeExpr)
    | ArrayType(inner: TypeExpr)
    | Generic(name: string, args: seq<TypeExpr>)
    | Union(alts: seq<TypeExpr>)

  datatype StrPart = Lit(text: string) | Interp(e: Expr)

  datatype FieldInit = FieldInit(key: string, value: Expr)

  datatype Expr =
    | Int(n: int)
    | Bool(b: bool)
    | Null
    | Duration(ms: nat)
    | Str(parts: seq<StrPart>)
    | Ident(name: string)
    | EnvVar(name: string)
    | ImplicitField(field: string)
    | Field(base: Expr, field: string)
    | Call(callee: Expr, args: seq<Expr>)
    | Unary(uop: UnOp, rhs: Expr)
    | Binary(op: BinOp, lhs: Expr, rhs: Expr)
    | Record(tag: Option<string>, fields: seq<FieldInit>)
    | Array(elems: seq<Expr>)
    | Spread(inner: Expr)
    | Lambda(param: string, body: Expr)
    | Match(scrutinee: Expr, arms: seq<Arm>)
    | Range(lo: Expr, hi: Expr)

  datatype Pattern =
    | Wildcard
    | Binding(name: string)
    | Ctor(name: string, args: seq<Pattern>)

  datatype Arm = Arm(pattern: Pattern, body: ArmBody)

  datatype ArmBody =
    | Value(e: Expr)
    | Block(stmts: seq<Stmt>)
    | Retry(effects: seq<Effect>)

  datatype Effect = CallEffect(e: Expr) | Wait(e: Expr)

  datatype PathSeg = Literal(text: string) | Param(e: Expr)

  datatype PipelineOp =
    | Filter(lambda: Expr)
    | MapOp(lambda: Expr)
    | Limit(count: Expr)
    | Skip(count: Expr)
    | Reverse
    | Unique(key: Option<Expr>)
    | Flatten
    | Count
    | Sum(key: Option<Expr>)

  datatype Bind = Bind(name: string, ty: Option<TypeExpr>)

  datatype FetchStmt = FetchStmt(
    httpMethod: string,
    endpoint: string,
    path: seq<PathSeg>,
    params: seq<FieldInit>,
    body: Option<Expr>,
    idempotencyKey: Option<Expr>,
    pipeline: seq<PipelineOp>,
    bind: Option<Bind>)

  datatype Stmt =
    | FetchS(f: FetchStmt)
    | LetS(name: string, value: Expr)
    | LogS(value: Expr)
    | ParallelS(stmts: seq<Stmt>)
    | ForEachS(loopVar: string, iter: Expr, stmts: seq<Stmt>)
    | ReturnS(result: Option<Expr>)
    | AssertS(value: Expr)
    | UsingMockS(name: string)
    | ExprS(expr: Expr, bind: Option<Bind>)

  /** The variables a pattern captures (`pattern_binds` / `pattern_bindings`). */
  function PatternBinds(p: Pattern): set<string> {
    match p
    case Wildcard => {}
    case Binding(name) => {name}
    case Ctor(_, args) => PatternsBinds(args)
  }

  function PatternsBinds(ps: seq<Pattern>): set<string> {
    if ps == [] then {} else PatternBinds(ps[0]) + PatternsBinds(ps[1..])
  }
}
