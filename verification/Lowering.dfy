/** From statements to nodes: `parallel` blocks are flattened, matches and loops get bodies of their own,
    and every node records the names it reads. */
module Lowering {
  import opened Wrappers
  import opened Ast
  import opened Frames
  import opened Ir
  import opened Dependencies
  import opened Readiness

  predicate BindsResult(bind: Option<Bind>) {
    hide *;
    bind.Some? && bind.value.ty.Some? && bind.value.ty.value.Generic? && bind.value.ty.value.name == "Result"
  }

  /** Latencies and batch rules are filled in once the endpoints are known. */
  function LowerFetch(f: FetchStmt): FetchIr {
    hide *;
    FetchIr(f.httpMethod, f.endpoint, f.path, f.params, f.body, f.idempotencyKey, None, None, f.pipeline,
            BindsResult(f.bind), if f.bind.Some? then f.bind.value.ty else None)
  }

  function NameOf(bind: Option<Bind>): Option<string> {
    hide *;
    if bind.Some? then Some(bind.value.name) else None
  }

  /** What a body reads from its enclosing scope. */
  function ExternalReads(b: Body): set<string> {
    hide *;
    InputsOf(b.nodes) - Binds(b.nodes)
  }

  function ArmReads(arm: ArmIr): set<string> {
    hide *;
    (match arm.body
     case ValueArm(e) => FreeVars(e)
     case RetryArm(effects) => EffectsVars(effects, false)
     case BodyArm(b) => ExternalReads(b))
    - PatternBinds(arm.pattern)
  }

  function ArmsReads(arms: seq<ArmIr>): set<string> {
    hide *;
    if arms == [] then {} else ArmReads(arms[0]) + ArmsReads(arms[1..])
  }

  /** Whether a body can hit a `return`, directly or in a nested arm or loop. */
  predicate CanReturn(stmts: seq<Stmt>)
    decreases stmts, 0
  {
    hide *;
    stmts != [] && (CanReturnStmt(stmts[0]) || CanReturn(stmts[1..]))
  }

  predicate CanReturnStmt(s: Stmt)
    decreases s, 0
  {
    hide *;
    match s
    case ReturnS(_) => true
    case ParallelS(stmts) => CanReturn(stmts)
    case ForEachS(_, _, stmts) => CanReturn(stmts)
    case ExprS(expr, _) => expr.Match? && assert expr < s; CanReturnArms(expr.arms)
    case _ => false
  }

  predicate CanReturnArms(arms: seq<Arm>)
    decreases arms, 0
  {
    hide *;
    arms != [] && assert arms[0].body < arms[0]; ((arms[0].body.Block? && CanReturn(arms[0].body.stmts))
        || CanReturnArms(arms[1..]))
  }

  // ---------- statements to nodes ----------

  /** A node at the end of `nodes`.  A `match` used as a statement becomes a node of its own kind, whose
      reads include what its arms read from outside. */
  function Pushed(nodes: seq<Node>, kind: NodeKind, binding: Option<string>, inputs: set<string>,
      effect: bool): seq<Node> {
    hide *;
    nodes + [Node(|nodes|, kind, binding, inputs, {}, effect, true)]
  }

  function LowerStmt(s: Stmt, nodes: seq<Node>): seq<Node>
    decreases s, 0
  {
    hide *;
    match s
    case UsingMockS(_) => nodes
    case ParallelS(stmts) => LowerEach(stmts, |stmts|, nodes)
    case ForEachS(loopVar, iter, stmts) =>
      var inner := LowerBody(stmts);
      Pushed(nodes, ForEachN(ForEachIr(loopVar, iter, inner, BodyCanReturn(inner))), None,
             FreeVars(iter) + (ExternalReads(inner) - {loopVar}), true)
    case FetchS(f) =>
      Pushed(nodes, FetchN(LowerFetch(f)), NameOf(f.bind), FetchVars(LowerFetch(f), false), f.httpMethod != "GET")
    case LetS(name, value) => Pushed(nodes, LetN(value), Some(name), FreeVars(value), false)
    case LogS(value) => Pushed(nodes, LogN(value), None, FreeVars(value), true)
    case ReturnS(result) => Pushed(nodes, ReturnN(result), None, OptVars(result, false), true)
    case AssertS(value) => Pushed(nodes, AssertN(value), None, FreeVars(value), true)
    case ExprS(expr, bind) =>
      if expr.Match? then
        assert expr < s;
        var m := MatchIr(expr.scrutinee, LowerArms(expr.arms, |expr.arms|));
        Pushed(nodes, MatchN(m), NameOf(bind), FreeVars(m.scrutinee) + ArmsReads(m.arms), true)
      else Pushed(nodes, ExprN(expr), NameOf(bind), FreeVars(expr), true)
  }

  /** The first `k` statements, after `nodes`. */
  function LowerEach(stmts: seq<Stmt>, k: nat, nodes: seq<Node>): seq<Node>
    requires k <= |stmts|
    decreases stmts, 1, k
  {
    hide *;
    if k == 0 then nodes else LowerStmt(stmts[k - 1], LowerEach(stmts, k - 1, nodes))
  }

  function LowerBody(stmts: seq<Stmt>): Body
    decreases stmts, 2
  {
    hide *;
    Body(WithDeps(LowerEach(stmts, |stmts|, [])), [])
  }

  function LowerArms(arms: seq<Arm>, k: nat): seq<ArmIr>
    requires k <= |arms|
    decreases arms, 1, k
  {
    hide *;
    if k == 0 then [] else LowerArms(arms, k - 1) + [LowerArm(arms[k - 1])]
  }

  function LowerArm(arm: Arm): ArmIr
    decreases arm, 0
  {
    hide *;
    assert arm.body < arm;
    ArmIr(arm.pattern,
          match arm.body
          case Value(e) => ValueArm(e)
          case Block(stmts) => BodyArm(LowerBody(stmts))
          case Retry(effects) => RetryArm(effects))
  }

  /** Whether a lowered body can hit a `return`. */
  predicate BodyCanReturn(b: Body)
    decreases b
  {
    hide *;
    exists n | n in b.nodes :: KindCanReturn(n.kind)
  }

  predicate KindCanReturn(k: NodeKind)
    decreases k
  {
    hide *;
    match k
    case ReturnN(_) => true
    case ForEachN(fe) => fe.canReturn
    case MatchN(m) => exists a | a in m.arms :: ArmCanReturn(a)
    case _ => false
  }

  predicate ArmCanReturn(a: ArmIr)
    decreases a
  {
    hide *;
    a.body.BodyArm? && assert a.body < a; BodyCanReturn(a.body.b)
  }

  // ---------- what lowering records ----------

  /** Ids are positions, effects are marked, only nodes that may bind do, and the recorded reads are the
      free variables of the node, looking through nested bodies. */
  ghost predicate Faithful(nodes: seq<Node>, i: nat)
    requires i < |nodes|
  {
    hide *;
    var n := nodes[i];
    n.id == i && n.effect == IsEffect(n.kind) && (n.binding.Some? ==> MayBind(n.kind))
        && n.inputs == KindVars(n.kind, false)
  }

  ghost predicate AllFaithful(nodes: seq<Node>) {
    hide *;
    forall i: nat | i < |nodes| :: Faithful(nodes, i)
  }

  lemma {:induction false} InputsAreVars(nodes: seq<Node>)
    requires hide *; forall n | n in nodes :: n.inputs == KindVars(n.kind, false)
    ensures InputsOf(nodes) == NodesVars(nodes, false)
  {
    hide KindVars;
    if nodes != [] {
      InputsAreVars(nodes[1..]);
      assert nodes[0].inputs == KindVars(nodes[0].kind, false);
      assert nodes == [nodes[0]] + nodes[1..];
      assert InputsOf(nodes) == nodes[0].inputs + InputsOf(nodes[1..]);
    }
  }

  lemma {:induction false} WiredFaithful(nodes: seq<Node>)
    requires hide *; AllFaithful(nodes)
    ensures AllFaithful(WithDeps(nodes))
  {
    hide KindVars, DepsOf;
    forall i: nat | i < |nodes| ensures Faithful(WithDeps(nodes), i) { assert Faithful(nodes, i); }
  }

  lemma PushedFaithful(nodes: seq<Node>, kind: NodeKind, binding: Option<string>, inputs: set<string>, effect: bool)
    requires hide *; AllFaithful(nodes) && effect == IsEffect(kind) && (binding.Some? ==> MayBind(kind))
             && inputs == KindVars(kind, false)
    ensures AllFaithful(Pushed(nodes, kind, binding, inputs, effect))
  {
    hide KindVars, IsEffect, MayBind;
    forall i: nat | i < |nodes|
        ensures Faithful(Pushed(nodes, kind, binding, inputs, effect), i) { assert Faithful(nodes, i); }
  }

  lemma {:induction false} StmtFaithful(s: Stmt, nodes: seq<Node>)
    requires hide *; AllFaithful(nodes)
    ensures AllFaithful(LowerStmt(s, nodes))
    decreases s, 0
  {
    hide Vars, DepsOf, AllFaithful;
    match s {
      case UsingMockS(_) =>
      case ParallelS(stmts) => EachFaithful(stmts, |stmts|, nodes);
      case ForEachS(loopVar, iter, stmts) =>
        var inner := LowerBody(stmts);
        BodyFaithful(stmts);
        ExternalIsVars(inner);
        PushedFaithful(nodes, ForEachN(ForEachIr(loopVar, iter, inner, BodyCanReturn(inner))), None,
                       FreeVars(iter) + (ExternalReads(inner) - {loopVar}), true);
      case FetchS(f) =>
        PushedFaithful(nodes, FetchN(LowerFetch(f)), NameOf(f.bind), FetchVars(LowerFetch(f), false),
            f.httpMethod != "GET");
      case LetS(name, value) => PushedFaithful(nodes, LetN(value), Some(name), FreeVars(value), false);
      case LogS(value) => PushedFaithful(nodes, LogN(value), None, FreeVars(value), true);
      case ReturnS(result) => PushedFaithful(nodes, ReturnN(result), None, OptVars(result, false), true);
      case AssertS(value) => PushedFaithful(nodes, AssertN(value), None, FreeVars(value), true);
      case ExprS(expr, bind) =>
        if expr.Match? {
          assert expr < s;
          var m := MatchIr(expr.scrutinee, LowerArms(expr.arms, |expr.arms|));
          ArmsFaithful(expr.arms, |expr.arms|);
          PushedFaithful(nodes, MatchN(m), NameOf(bind), FreeVars(m.scrutinee) + ArmsReads(m.arms), true);
        } else {
          PushedFaithful(nodes, ExprN(expr), NameOf(bind), FreeVars(expr), true);
        }
    }
  }

  lemma {:induction false} EachFaithful(stmts: seq<Stmt>, k: nat, nodes: seq<Node>)
    requires hide *; k <= |stmts| && AllFaithful(nodes)
    ensures AllFaithful(LowerEach(stmts, k, nodes))
    decreases stmts, 1, k
  {
    hide AllFaithful, LowerStmt;
    if k > 0 {
      EachFaithful(stmts, k - 1, nodes);
      StmtFaithful(stmts[k - 1], LowerEach(stmts, k - 1, nodes));
    }
  }

  /** Every node of a lowered body records exactly its free variables. */
  lemma {:induction false} BodyFaithful(stmts: seq<Stmt>)
    ensures hide *; AllFaithful(LowerBody(stmts).nodes) && Wired(LowerBody(stmts).nodes)
    decreases stmts, 2
  {
    hide Vars, DepsOf, LowerEach, KindVars;
    EachFaithful(stmts, |stmts|, []);
    var nodes := LowerEach(stmts, |stmts|, []);
    WiredFaithful(nodes);
    forall i: nat | i < |nodes|
        ensures WithDeps(nodes)[i].deps == DepsOf(WithDeps(nodes), i) { WithDepsFixed(nodes, i); }
  }

  lemma ExternalIsVars(b: Body)
    requires hide *; AllFaithful(b.nodes)
    ensures ExternalReads(b) == BodyVars(b, false)
  {
    hide Vars, DepsOf, KindVars;
    forall n | n in b.nodes ensures n.inputs == KindVars(n.kind, false) {
      var i: nat :| i < |b.nodes| && b.nodes[i] == n;
      assert Faithful(b.nodes, i);
    }
    InputsAreVars(b.nodes);
  }

  lemma {:induction false} ArmsFaithful(arms: seq<Arm>, k: nat)
    requires hide *; k <= |arms|
    ensures ArmsReads(LowerArms(arms, k)) == ArmsIrVars(LowerArms(arms, k), false)
    decreases arms, 1, k
  {
    hide LowerArm, ArmReads, ArmIrVars;
    if k > 0 {
      ArmsFaithful(arms, k - 1);
      ArmFaithful(arms[k - 1]);
      ReadsSnoc(LowerArms(arms, k - 1), LowerArm(arms[k - 1]));
    }
  }

  lemma {:induction false} ReadsSnoc(arms: seq<ArmIr>, arm: ArmIr)
    ensures hide *; ArmsReads(arms + [arm]) == ArmsReads(arms) + ArmReads(arm)
    ensures ArmsIrVars(arms + [arm], false) == ArmsIrVars(arms, false) + ArmIrVars(arm, false)
  {
    hide ArmReads, ArmIrVars;
    if arms == [] {
      assert [arm][1..] == [];
    } else {
      assert (arms + [arm])[1..] == arms[1..] + [arm];
      ReadsSnoc(arms[1..], arm);
    }
  }

  lemma {:induction false} ArmFaithful(arm: Arm)
    ensures hide *; ArmReads(LowerArm(arm)) == ArmIrVars(LowerArm(arm), false)
    decreases arm, 0
  {
    hide Vars, KindVars, BodyVars, DepsOf, LowerBody;
    if arm.body.Block? {
      assert arm.body < arm;
      BodyFaithful(arm.body.stmts);
      ExternalIsVars(LowerBody(arm.body.stmts));
    }
  }

  /** A lowered body meets what the optimizer takes for granted exactly when no node depends on a name of
      the body that its free variables leave out, as `$NAME` does. */
  lemma LoweredIsRecorded(stmts: seq<Stmt>)
    ensures hide *; var b := LowerBody(stmts);
            Recorded(b) <==> forall i: nat | i < |b.nodes| ::
                Uses(b, i) * Binds(b.nodes) <= KindVars(b.nodes[i].kind, false)
  {
    hide LowerBody, KindVars, IsEffect, MayBind, Binds, DepsOf;
    BodyFaithful(stmts);
    var b := LowerBody(stmts);
    forall i: nat | i < |b.nodes|
        ensures b.nodes[i].inputs == KindVars(b.nodes[i].kind, false)
        && b.nodes[i].id == i { assert Faithful(b.nodes, i); }
    forall i: nat | i < |b.nodes|
        ensures b.nodes[i].effect == IsEffect(b.nodes[i].kind)
        && (b.nodes[i].binding.Some? ==> MayBind(b.nodes[i].kind)) {
      assert Faithful(b.nodes, i);
    }
  }

  /** `parallel` only groups: its statements are lowered where it stands. */
  function Ungrouped(stmts: seq<Stmt>, k: nat): seq<Stmt>
    requires k <= |stmts|
    decreases stmts, 1, k
  {
    hide *;
    if k == 0 then [] else Ungrouped(stmts, k - 1) + UngroupedStmt(stmts[k - 1])
  }

  function UngroupedStmt(s: Stmt): seq<Stmt>
    decreases s, 0
  {
    hide *;
    match s
    case ParallelS(stmts) => Ungrouped(stmts, |stmts|)
    case UsingMockS(_) => []
    case _ => [s]
  }

  lemma {:induction false} EachAppend(a: seq<Stmt>, b: seq<Stmt>, k: nat, nodes: seq<Node>)
    requires hide *; k <= |b|
    ensures LowerEach(a + b, |a| + k, nodes) == LowerEach(b, k, LowerEach(a, |a|, nodes))
    decreases k
  {
    hide LowerStmt;
    if k == 0 {
      EachPrefix(a, b, |a|, nodes);
    } else {
      EachAppend(a, b, k - 1, nodes);
    }
  }

  lemma {:induction false} EachPrefix(a: seq<Stmt>, b: seq<Stmt>, k: nat, nodes: seq<Node>)
    requires hide *; k <= |a|
    ensures LowerEach(a + b, k, nodes) == LowerEach(a, k, nodes)
    decreases k
  {
    hide LowerStmt;
    if k > 0 { EachPrefix(a, b, k - 1, nodes); }
  }

  lemma {:induction false} FlatStmt(s: Stmt, nodes: seq<Node>)
    ensures hide *; LowerStmt(s, nodes) == LowerEach(UngroupedStmt(s), |UngroupedStmt(s)|, nodes)
    decreases s, 0
  {
    hide Vars, DepsOf, LowerBody;
    match s {
      case ParallelS(stmts) => FlatEach(stmts, |stmts|, nodes);
      case UsingMockS(_) =>
      case _ =>
        assert UngroupedStmt(s) == [s];
        assert LowerEach([s], 0, nodes) == nodes;
        assert LowerEach([s], 1, nodes) == LowerStmt(s, nodes);
    }
  }

  lemma {:induction false} FlatEach(stmts: seq<Stmt>, k: nat, nodes: seq<Node>)
    requires hide *; k <= |stmts|
    ensures LowerEach(stmts, k, nodes) == LowerEach(Ungrouped(stmts, k), |Ungrouped(stmts, k)|, nodes)
    decreases stmts, 1, k
  {
    hide LowerStmt, UngroupedStmt;
    if k > 0 {
      FlatEach(stmts, k - 1, nodes);
      FlatStmt(stmts[k - 1], LowerEach(stmts, k - 1, nodes));
      EachAppend(Ungrouped(stmts, k - 1), UngroupedStmt(stmts[k - 1]), |UngroupedStmt(stmts[k - 1])|, nodes);
    }
  }

  /** Grouping statements in `parallel` blocks changes nothing: the schedule finds the parallelism. */
  lemma ParallelOnlyGroups(stmts: seq<Stmt>)
    ensures hide *; LowerBody(stmts) == LowerBody(Ungrouped(stmts, |stmts|))
  {
    hide Vars, DepsOf;
    FlatEach(stmts, |stmts|, []);
  }

  // ---------- batch rules ----------

  /** An endpoint's `batch:` rule: the query parameter and the key field. */
  datatype BatchRule = BatchRule(queryParam: string, keyField: string)

  /** Fill in the batch rules of GETs, in nested bodies too. */
  function Annotated(b: Body, rules: map<string, BatchRule>): Body
    decreases b
  {
    hide *;
    Body(seq(|b.nodes|, i requires 0 <= i < |b.nodes| => b.nodes[i].(kind := AnnotatedKind(b.nodes[i].kind, rules))),
        b.waves)
  }

  function AnnotatedKind(k: NodeKind, rules: map<string, BatchRule>): NodeKind
    decreases k
  {
    hide *;
    match k
    case FetchN(f) =>
      if f.httpMethod == "GET" && f.endpoint in rules then
        FetchN(f.(batch := Some(BatchSpec(rules[f.endpoint].queryParam, rules[f.endpoint].keyField, [], None))))
      else k
    case MatchN(m) =>
      MatchN(m.(arms := seq(|m.arms|, i
          requires 0 <= i < |m.arms| => assert m.arms[i] < k; AnnotatedArm(m.arms[i], rules))))
    case ForEachN(fe) => ForEachN(fe.(body := Annotated(fe.body, rules)))
    case _ => k
  }

  function AnnotatedArm(a: ArmIr, rules: map<string, BatchRule>): ArmIr
    decreases a
  {
    hide *;
    assert a.body < a;
    if a.body.BodyArm? then a.(body := BodyArm(Annotated(a.body.b, rules))) else a
  }

  /** `c` is `b` with a batch for every GET of a ruled endpoint, at any depth: its parameter and key are the rule's,
      and it names no identifiers yet.  Nothing else differs. */
  ghost predicate BatchedAs(b: Body, c: Body, rules: map<string, BatchRule>)
    decreases b
  {
    && |c.nodes| == |b.nodes| && c.waves == b.waves
    && forall i: nat | i < |b.nodes| ::
         c.nodes[i] == b.nodes[i].(kind := c.nodes[i].kind) && BatchedKind(b.nodes[i].kind, c.nodes[i].kind, rules)
  }

  ghost predicate BatchedKind(k: NodeKind, l: NodeKind, rules: map<string, BatchRule>)
    decreases k
  {
    if k.FetchN? && k.f.httpMethod == "GET" && k.f.endpoint in rules then
      && l.FetchN? && l.f == k.f.(batch := l.f.batch) && l.f.batch.Some?
      && l.f.batch.value.queryParam == rules[k.f.endpoint].queryParam
      && l.f.batch.value.keyField == rules[k.f.endpoint].keyField
      && l.f.batch.value.ids == [] && l.f.batch.value.mapped == None
    else if k.MatchN? then
      && l.MatchN? && l.m.scrutinee == k.m.scrutinee && |l.m.arms| == |k.m.arms|
      && forall i: nat | i < |k.m.arms| ::
           && l.m.arms[i].pattern == k.m.arms[i].pattern
           && if k.m.arms[i].body.BodyArm? then
                assert k.m.arms[i].body < k.m.arms[i];
                l.m.arms[i].body.BodyArm? && BatchedAs(k.m.arms[i].body.b, l.m.arms[i].body.b, rules)
              else l.m.arms[i].body == k.m.arms[i].body
    else if k.ForEachN? then
      l.ForEachN? && l.fe == k.fe.(body := l.fe.body) && BatchedAs(k.fe.body, l.fe.body, rules)
    else l == k
  }

  lemma {:induction false} AnnotatedExactly(b: Body, rules: map<string, BatchRule>)
    ensures BatchedAs(b, Annotated(b, rules), rules)
    decreases b
  {
    hide BatchedKind, AnnotatedKind;
    forall i: nat | i < |b.nodes| ensures BatchedKind(b.nodes[i].kind, AnnotatedKind(b.nodes[i].kind, rules), rules) {
      assert b.nodes[i].kind < b.nodes[i];
      KindBatched(b.nodes[i].kind, rules);
    }
  }

  lemma {:induction false} KindBatched(k: NodeKind, rules: map<string, BatchRule>)
    ensures BatchedKind(k, AnnotatedKind(k, rules), rules)
    decreases k
  {
    hide BatchedAs, Annotated;
    if k.MatchN? {
      forall i: nat | i < |k.m.arms| && k.m.arms[i].body.BodyArm?
          ensures BatchedAs(k.m.arms[i].body.b, Annotated(k.m.arms[i].body.b, rules), rules) {
        assert k.m.arms[i].body < k.m.arms[i];
        AnnotatedExactly(k.m.arms[i].body.b, rules);
      }
    }
    if k.ForEachN? { AnnotatedExactly(k.fe.body, rules); }
  }

  // ---------- one node for every flattened statement ----------

  ghost predicate BindsAs(n: Node, bind: Option<Bind>) {
    hide *;
    if bind.Some? then n.binding == Some(bind.value.name) else n.binding == None
  }

  /** The request is the statement's, without latency or batch as yet.  It is checked against the declared type,
      and its outcome is wrapped exactly when that type is `Result<...>`. */
  ghost predicate IsFetchOf(r: FetchIr, f: FetchStmt) {
    hide *;
    && r.httpMethod == f.httpMethod && r.endpoint == f.endpoint && r.path == f.path && r.params == f.params
    && r.body == f.body && r.idempotencyKey == f.idempotencyKey && r.pipeline == f.pipeline
    && r.latency == None && r.batch == None
    && r.contract == (if f.bind.Some? then f.bind.value.ty else None)
    && (r.asResult <==> exists args :: r.contract == Some(Generic("Result", args)))
  }

  ghost predicate IsArmOf(a: ArmIr, arm: Arm) {
    hide *;
    && a.pattern == arm.pattern
    && match arm.body
       case Value(e) => a.body == ValueArm(e)
       case Block(stmts) => a.body == BodyArm(LowerBody(stmts))
       case Retry(effects) => a.body == RetryArm(effects)
  }

  ghost predicate AreArmsOf(lowered: seq<ArmIr>, arms: seq<Arm>) {
    hide *;
    |lowered| == |arms| && forall i: nat | i < |arms| :: IsArmOf(lowered[i], arms[i])
  }

  /** The node of a statement that is not a group. */
  ghost predicate IsNodeOf(n: Node, s: Stmt) {
    hide *;
    match s
    case FetchS(f) =>
      n.kind.FetchN? && IsFetchOf(n.kind.f, f) && BindsAs(n, f.bind) && n.effect == (f.httpMethod != "GET")
    case LetS(name, value) => n.kind == LetN(value) && n.binding == Some(name) && !n.effect
    case LogS(value) => n.kind == LogN(value) && n.binding == None && n.effect
    case ReturnS(result) => n.kind == ReturnN(result) && n.binding == None && n.effect
    case AssertS(value) => n.kind == AssertN(value) && n.binding == None && n.effect
    case ForEachS(loopVar, iter, stmts) =>
      n.kind == ForEachN(ForEachIr(loopVar, iter, LowerBody(stmts), CanReturn(stmts))) && n.binding == None && n.effect
    case ExprS(expr, bind) =>
      && BindsAs(n, bind) && n.effect
      && if !expr.Match? then n.kind == ExprN(expr)
         else n.kind.MatchN? && n.kind.m.scrutinee == expr.scrutinee && AreArmsOf(n.kind.m.arms, expr.arms)
    case _ => false
  }

  // ---------- bodies that can return ----------

  ghost predicate SomeReturns(nodes: seq<Node>) {
    hide *;
    exists n :: n in nodes && KindCanReturn(n.kind)
  }

  lemma {:induction false} CanReturnSnoc(stmts: seq<Stmt>, s: Stmt)
    ensures hide *; CanReturn(stmts + [s]) <==> CanReturn(stmts) || CanReturnStmt(s)
  {
    hide CanReturnStmt;
    if stmts == [] {
      assert [s][1..] == [] && [] + [s] == [s];
    } else {
      assert (stmts + [s])[1..] == stmts[1..] + [s];
      CanReturnSnoc(stmts[1..], s);
    }
  }

  lemma {:induction false} StmtCanReturn(s: Stmt, nodes: seq<Node>)
    ensures hide *; SomeReturns(LowerStmt(s, nodes)) <==> SomeReturns(nodes) || CanReturnStmt(s)
    decreases s, 0
  {
    hide Vars, DepsOf, LowerBody, LowerEach, LowerArms, FreeVars, BodyCanReturn, ArmCanReturn;
    if s.ParallelS? {
      EachCanReturn(s.stmts, |s.stmts|, nodes);
      assert s.stmts[..|s.stmts|] == s.stmts;
    } else if !s.UsingMockS? {
      var n := LowerStmt(s, nodes)[|nodes|];
      assert LowerStmt(s, nodes) == nodes + [n];
      if s.ForEachS? { BodyReturns(s.stmts); }
      if s.ExprS? && s.expr.Match? {
        assert s.expr < s;
        ArmsReturn(s.expr.arms, |s.expr.arms|);
        assert s.expr.arms[..|s.expr.arms|] == s.expr.arms;
      }
      assert KindCanReturn(n.kind) <==> CanReturnStmt(s);
    }
  }

  lemma {:induction false} EachCanReturn(stmts: seq<Stmt>, k: nat, nodes: seq<Node>)
    requires hide *; k <= |stmts|
    ensures SomeReturns(LowerEach(stmts, k, nodes)) <==> SomeReturns(nodes) || CanReturn(stmts[..k])
    decreases stmts, 1, k
  {
    hide LowerStmt, CanReturnStmt;
    if k > 0 {
      EachCanReturn(stmts, k - 1, nodes);
      StmtCanReturn(stmts[k - 1], LowerEach(stmts, k - 1, nodes));
      assert stmts[..k] == stmts[..k - 1] + [stmts[k - 1]];
      CanReturnSnoc(stmts[..k - 1], stmts[k - 1]);
    }
  }

  /** A lowered body can return exactly when it holds a `return`, directly or in a nested block. */
  lemma {:induction false} BodyReturns(stmts: seq<Stmt>)
    ensures hide *; BodyCanReturn(LowerBody(stmts)) <==> CanReturn(stmts)
    decreases stmts, 2
  {
    hide Vars, DepsOf, LowerEach, KindCanReturn, CanReturnStmt;
    EachCanReturn(stmts, |stmts|, []);
    assert stmts[..|stmts|] == stmts;
    var nodes := LowerEach(stmts, |stmts|, []);
    var wired := WithDeps(nodes);
    forall i: nat | i < |nodes| ensures wired[i].kind == nodes[i].kind && nodes[i] in nodes && wired[i] in wired {}
    assert LowerBody(stmts).nodes == wired;
  }

  ghost predicate SomeArmReturns(arms: seq<ArmIr>) {
    hide *;
    exists a :: a in arms && ArmCanReturn(a)
  }

  lemma {:induction false} CanReturnArmsSnoc(arms: seq<Arm>, arm: Arm)
    ensures hide *;
            CanReturnArms(arms + [arm]) <==> CanReturnArms(arms) || (arm.body.Block? && CanReturn(arm.body.stmts))
  {
    hide CanReturn;
    if arms == [] {
      assert [arm][1..] == [] && [] + [arm] == [arm];
    } else {
      assert (arms + [arm])[1..] == arms[1..] + [arm];
      CanReturnArmsSnoc(arms[1..], arm);
    }
  }

  lemma {:induction false} ArmsReturn(arms: seq<Arm>, k: nat)
    requires hide *; k <= |arms|
    ensures SomeArmReturns(LowerArms(arms, k)) <==> CanReturnArms(arms[..k])
    decreases arms, 1, k
  {
    hide BodyCanReturn, LowerBody, CanReturn;
    if k > 0 {
      ArmsReturn(arms, k - 1);
      var arm := arms[k - 1];
      assert arm.body < arm;
      if arm.body.Block? { BodyReturns(arm.body.stmts); }
      assert LowerArms(arms, k) == LowerArms(arms, k - 1) + [LowerArm(arm)];
      assert ArmCanReturn(LowerArm(arm)) <==> arm.body.Block? && CanReturn(arm.body.stmts);
      assert arms[..k] == arms[..k - 1] + [arm];
      CanReturnArmsSnoc(arms[..k - 1], arm);
    }
  }

  lemma {:induction false} FlatHasNoGroups(stmts: seq<Stmt>, k: nat)
    requires hide *; k <= |stmts|
    ensures forall s | s in Ungrouped(stmts, k) :: !s.ParallelS? && !s.UsingMockS?
    decreases stmts, 1, k
  {
    if k > 0 {
      FlatHasNoGroups(stmts, k - 1);
      if stmts[k - 1].ParallelS? { FlatHasNoGroups(stmts[k - 1].stmts, |stmts[k - 1].stmts|); }
    }
  }

  lemma {:induction false} NodesOfFlat(flat: seq<Stmt>, k: nat)
    requires hide *; k <= |flat| && forall s | s in flat :: !s.ParallelS? && !s.UsingMockS?
    ensures |LowerEach(flat, k, [])| == k
    ensures forall j: nat | j < k :: IsNodeOf(LowerEach(flat, k, [])[j], flat[j])
  {
    hide Vars, DepsOf, LowerStmt, LowerBody, BodyCanReturn;
    if k > 0 {
      NodesOfFlat(flat, k - 1);
      assert flat[k - 1] in flat;
      OneMoreNode(flat[k - 1], LowerEach(flat, k - 1, []));
    }
  }

  lemma {:induction false} ArmsLowered(arms: seq<Arm>, k: nat)
    requires hide *; k <= |arms|
    ensures AreArmsOf(LowerArms(arms, k), arms[..k])
  {
    hide LowerBody;
    if k > 0 { ArmsLowered(arms, k - 1); }
  }

  lemma OneMoreNode(s: Stmt, nodes: seq<Node>)
    requires hide *; !s.ParallelS? && !s.UsingMockS?
    ensures |LowerStmt(s, nodes)| == |nodes| + 1 && LowerStmt(s, nodes)[..|nodes|] == nodes
    ensures IsNodeOf(LowerStmt(s, nodes)[|nodes|], s)
  {
    hide Vars, DepsOf, LowerBody, BodyCanReturn, CanReturn, LowerArms, AreArmsOf, FreeVars;
    if s.ForEachS? { BodyReturns(s.stmts); }
    if s.ExprS? && s.expr.Match? {
      ArmsLowered(s.expr.arms, |s.expr.arms|);
      assert s.expr.arms[..|s.expr.arms|] == s.expr.arms;
    }
  }

  /** A lowered body has one node for every statement outside its groups, in order. */
  lemma LoweredInOrder(stmts: seq<Stmt>)
    ensures hide *; var flat, nodes := Ungrouped(stmts, |stmts|), LowerBody(stmts).nodes;
            |nodes| == |flat| && forall j: nat | j < |flat| :: IsNodeOf(nodes[j], flat[j])
  {
    hide Vars, DepsOf;
    var flat := Ungrouped(stmts, |stmts|);
    ParallelOnlyGroups(stmts);
    FlatHasNoGroups(stmts, |stmts|);
    NodesOfFlat(flat, |flat|);
    hide LowerStmt, IsNodeOf;
    forall j: nat | j < |flat| ensures IsNodeOf(LowerBody(flat).nodes[j], flat[j]) {
      SameNodeOf(LowerEach(flat, |flat|, [])[j], LowerBody(flat).nodes[j], flat[j]);
    }
  }

  lemma SameNodeOf(a: Node, b: Node, s: Stmt)
    requires hide *; IsNodeOf(a, s) && a.kind == b.kind && a.binding == b.binding && a.effect == b.effect
    ensures IsNodeOf(b, s)
  {
    hide Vars, DepsOf, LowerBody;
  }
}
