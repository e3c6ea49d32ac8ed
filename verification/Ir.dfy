/** The intermediate representation that the optimizer rewrites and the executor runs. */
module Ir {
  import opened Wrappers
  import opened Ast
  import opened Frames

  type NodeId = nat

  function Ids(ids: seq<NodeId>): set<NodeId> { set i | i in ids }

  datatype Body = Body(nodes: seq<Node>, waves: seq<seq<NodeId>>)

  /** `inputs` are the names recorded as read, `deps` the earlier nodes depended on. */
  datatype Node = Node(
    id: NodeId,
    kind: NodeKind,
    binding: Option<string>,
    inputs: set<string>,
    deps: set<NodeId>,
    effect: bool,
    live: bool)

  datatype NodeKind =
    | FetchN(f: FetchIr)
    | LetN(value: Expr)
    | LogN(value: Expr)
    | ReturnN(result: Option<Expr>)
    | AssertN(value: Expr)
    | ExprN(value: Expr)
    | MatchN(m: MatchIr)
    | ScatterN(batch: string, keyField: string, want: Expr)
    | ForEachN(fe: ForEachIr)

  datatype FetchIr = FetchIr(
    httpMethod: string,
    endpoint: string,
    path: seq<PathSeg>,
    params: seq<FieldInit>,
    body: Option<Expr>,
    idempotencyKey: Option<Expr>,
    latency: Option<nat>,
    batch: Option<BatchSpec>,
    pipeline: seq<PipelineOp>,
    asResult: bool,
    contract: Option<TypeExpr>)

  datatype BatchSpec = BatchSpec(
    queryParam: string, keyField: string, ids: seq<Expr>, mapped: Option<MappedIds>)

  datatype MappedIds = MappedIds(coll: Expr, loopVar: string, key: Expr)

  datatype MatchIr = MatchIr(scrutinee: Expr, arms: seq<ArmIr>)

  datatype ArmIr = ArmIr(pattern: Pattern, body: ArmBodyIr)

  datatype ArmBodyIr =
    | ValueArm(e: Expr)
    | BodyArm(b: Body)
    | RetryArm(effects: seq<Effect>)

  datatype ForEachIr = ForEachIr(loopVar: string, iter: Expr, body: Body, canReturn: bool)

  datatype Flow = Flow(name: string, params: seq<string>, body: Body)

  function FindFlow(flows: seq<Flow>, name: string): (r: Option<Flow>)
    ensures r.Some? ==> r.value in flows && r.value.name == name
  {
    if flows == [] then None
    else if flows[0].name == name then Some(flows[0])
    else FindFlow(flows[1..], name)
  }

  /** The name a call expression applies, when it applies a name. */
  function CallName(e: Expr): Option<string> {
    if e.Call? && e.callee.Ident? then Some(e.callee.name) else None
  }

  /** Effects keep their written order and are always live. */
  predicate IsEffect(k: NodeKind) {
    match k
    case FetchN(f) => f.httpMethod != "GET"
    case LetN(_) => false
    case ScatterN(_, _, _) => false
    case _ => true
  }

  function Binds(nodes: seq<Node>): set<string> {
    set n | n in nodes && n.binding.Some? :: n.binding.value
  }

  function InputsOf(nodes: seq<Node>): set<string> {
    set n, x | n in nodes && x in n.inputs :: x
  }

  function BindSet(n: Node): set<string> {
    if n.binding.Some? then {n.binding.value} else {}
  }

  // ---------- the variables a node reads ----------

  function OptVars(e: Option<Expr>, exact: bool): set<string> {
    hide *;
    if e.Some? then Vars(e.value, exact) else {}
  }

  function FetchVars(f: FetchIr, exact: bool): set<string> {
    hide *;
    PathVars(f.path, exact) + FieldsVars(f.params, exact) + OptVars(f.body, exact)
    + OptVars(f.idempotencyKey, exact) + OpsVars(f.pipeline, exact)
    + (if f.batch.Some? then BatchVars(f.batch.value, exact) else {})
  }

  function BatchVars(s: BatchSpec, exact: bool): set<string> {
    hide *;
    ExprsVars(s.ids, exact)
    + (if s.mapped.Some? then
         Vars(s.mapped.value.coll, exact) + (Vars(s.mapped.value.key, exact) - {s.mapped.value.loopVar})
       else {})
  }

  /** The free variables of a node, looking through nested bodies. */
  function KindVars(k: NodeKind, exact: bool): set<string>
    decreases k, 1
  {
    hide *;
    match k
    case FetchN(f) => FetchVars(f, exact)
    case LetN(e) => Vars(e, exact)
    case LogN(e) => Vars(e, exact)
    case ReturnN(r) => OptVars(r, exact)
    case AssertN(e) => Vars(e, exact)
    case ExprN(e) => Vars(e, exact)
    case ScatterN(batch, _, want) => {batch} + Vars(want, exact)
    case MatchN(m) => Vars(m.scrutinee, exact) + ArmsIrVars(m.arms, exact)
    case ForEachN(fe) => Vars(fe.iter, exact) + (BodyVars(fe.body, exact) - {fe.loopVar})
  }

  function ArmsIrVars(arms: seq<ArmIr>, exact: bool): set<string>
    decreases arms, 0
  {
    hide *;
    if arms == [] then {} else ArmIrVars(arms[0], exact) + ArmsIrVars(arms[1..], exact)
  }

  function ArmIrVars(arm: ArmIr, exact: bool): set<string>
    decreases arm, 0
  {
    hide *;
    (match arm.body
     case ValueArm(e) => Vars(e, exact)
     case BodyArm(b) => BodyVars(b, exact)
     case RetryArm(effects) => EffectsVars(effects, exact))
    - (if exact then Captures(arm.pattern) else PatternBinds(arm.pattern))
  }

  /** What a body reads from outside: its nodes' variables minus everything it binds. */
  function BodyVars(b: Body, exact: bool): set<string>
    decreases b, 0
  {
    hide *;
    NodesVars(b.nodes, exact) - Binds(b.nodes)
  }

  function NodesVars(nodes: seq<Node>, exact: bool): set<string>
    decreases nodes, 0
  {
    hide *;
    if nodes == [] then {}
    else
      assert nodes[0].kind < nodes[0];
      KindVars(nodes[0].kind, exact) + NodesVars(nodes[1..], exact)
  }

  /** Alike but for position, recorded reads and edges. */
  predicate SameWork(n: Node, o: Node) {
    n.kind == o.kind && n.binding == o.binding && n.effect == o.effect
  }

  // ---------- the names a node writes ----------

  /** Names that running a node may overwrite besides its own binding: nested bodies, pattern
      captures and loop variables all share the enclosing environment. */
  function Leaks(k: NodeKind): set<string>
    decreases k, 1
  {
    hide *;
    match k
    case MatchN(m) => ArmsLeaks(m.arms) + RetryTarget(m)
    case ForEachN(fe) => {fe.loopVar} + BodyWrites(fe.body)
    case _ => {}
  }

  function RetryTarget(m: MatchIr): set<string> {
    if m.scrutinee.Ident? && exists a :: a in m.arms && a.body.RetryArm? then {m.scrutinee.name} else {}
  }

  function ArmsLeaks(arms: seq<ArmIr>): set<string>
    decreases arms, 0
  {
    hide *;
    if arms == [] then {}
    else
      assert arms[0].body < arms[0];
      PatternBinds(arms[0].pattern)
      + (if arms[0].body.BodyArm? then BodyWrites(arms[0].body.b) else {})
      + ArmsLeaks(arms[1..])
  }

  function BodyWrites(b: Body): set<string>
    decreases b, 0
  {
    hide *;
    NodesWrites(b.nodes)
  }

  function NodesWrites(nodes: seq<Node>): set<string>
    decreases nodes, 0
  {
    hide *;
    if nodes == [] then {}
    else assert nodes[0].kind < nodes[0]; BindSet(nodes[0]) + Leaks(nodes[0].kind) + NodesWrites(nodes[1..])
  }

  function Writes(n: Node): set<string> {
    BindSet(n) + Leaks(n.kind)
  }
}
