/** Lowering as it runs: nodes are appended to one list, which is then wired in place. */
module Lowerer {
  import opened Wrappers
  import opened Ast
  import opened Frames
  import opened Ir
  import opened Dependencies
  import opened Lowering

  class NodeList {
    var nodes: seq<Node>

    constructor ()
      ensures nodes == []
    {
      nodes := [];
    }

    method Push(kind: NodeKind, binding: Option<string>, inputs: set<string>, effect: bool)
      modifies this
      ensures nodes == Pushed(old(nodes), kind, binding, inputs, effect)
    {
      nodes := nodes + [Node(|nodes|, kind, binding, inputs, {}, effect, true)];
    }

    method Lower(s: Stmt)
      modifies this
      ensures nodes == LowerStmt(s, old(nodes))
      decreases s, 0
    {
      match s
      case UsingMockS(_) =>
      case ParallelS(stmts) =>
        var k := 0;
        while k < |stmts|
          invariant k <= |stmts| && nodes == LowerEach(stmts, k, old(nodes))
        {
          Lower(stmts[k]);
          k := k + 1;
        }
      case ForEachS(loopVar, iter, stmts) =>
        var inner := Lowered(stmts);
        Push(ForEachN(ForEachIr(loopVar, iter, inner, BodyCanReturn(inner))), None,
            FreeVars(iter) + (ExternalReads(inner) - {loopVar}), true);
      case FetchS(f) =>
        Push(FetchN(LowerFetch(f)), NameOf(f.bind), FetchVars(LowerFetch(f), false), f.httpMethod != "GET");
      case LetS(name, value) => Push(LetN(value), Some(name), FreeVars(value), false);
      case LogS(value) => Push(LogN(value), None, FreeVars(value), true);
      case ReturnS(result) => Push(ReturnN(result), None, OptVars(result, false), true);
      case AssertS(value) => Push(AssertN(value), None, FreeVars(value), true);
      case ExprS(expr, bind) =>
        if expr.Match? {
          assert expr < s;
          var arms := LoweredArms(expr.arms);
          Push(MatchN(MatchIr(expr.scrutinee, arms)), NameOf(bind), FreeVars(expr.scrutinee) + ArmsReads(arms), true);
        } else {
          Push(ExprN(expr), NameOf(bind), FreeVars(expr), true);
        }
    }
  }

  method Lowered(stmts: seq<Stmt>) returns (b: Body)
    ensures b == LowerBody(stmts)
    decreases stmts, 2
  {
    var list := new NodeList();
    var k := 0;
    while k < |stmts|
      invariant k <= |stmts| && list.nodes == LowerEach(stmts, k, [])
    {
      list.Lower(stmts[k]);
      k := k + 1;
    }
    var nodes := new Node[|list.nodes|](i requires 0 <= i < |list.nodes| reads list => list.nodes[i]);
    assert nodes[..] == list.nodes;
    ComputeDeps(nodes);
    b := Body(nodes[..], []);
  }

  method LoweredArms(arms: seq<Arm>) returns (r: seq<ArmIr>)
    ensures r == LowerArms(arms, |arms|)
    decreases arms, 1
  {
    r := [];
    var k := 0;
    while k < |arms|
      invariant k <= |arms| && r == LowerArms(arms, k)
    {
      var arm := arms[k];
      assert arm.body < arm;
      match arm.body {
        case Value(e) => r := r + [ArmIr(arm.pattern, ValueArm(e))];
        case Block(stmts) =>
          var inner := Lowered(stmts);
          r := r + [ArmIr(arm.pattern, BodyArm(inner))];
        case Retry(effects) => r := r + [ArmIr(arm.pattern, RetryArm(effects))];
      }
      k := k + 1;
    }
  }
}
