/** The detector as it runs: provenance sets updated in place while the statements are walked, copied at
    the boundaries of scopes, and reports appended as fetches are met. */
module Detector {
  import opened Wrappers
  import opened Ast
  import opened Frames
  import opened LoopTaint

  class Flow {
    var network: set<string>
    var looped: set<string>

    constructor (t: Taint)
      ensures Held() == t
    {
      network, looped := t.network, t.looped;
    }

    function Held(): Taint
      reads this
    {
      Taint(network, looped)
    }

    method Assign(name: string, from: set<string>)
      modifies this
      ensures Held() == LoopTaint.Assign(old(Held()), name, from)
    {
      if !(from !! network) { network := network + {name}; } else { network := network - {name}; }
      if !(from !! looped) { looped := looped + {name}; } else { looped := looped - {name}; }
    }

    method EnterLoop(loopVar: string, fetched: bool)
      modifies this
      ensures Held() == Taint(Mark(old(network), loopVar, fetched), old(looped) + {loopVar})
    {
      looped := looped + {loopVar};
      if fetched { network := network + {loopVar}; } else { network := network - {loopVar}; }
    }

    method Capture(names: set<string>, net: bool, loop: bool)
      modifies this
      ensures Held() == Taint(if net then old(network) + names else old(network),
              if loop then old(looped) + names else old(looped))
    {
      if net { network := network + names; }
      if loop { looped := looped + names; }
    }

    method Bind(name: string, depends: bool)
      modifies this
      ensures Held() == Taint(old(network) + {name}, Mark(old(looped), name, depends))
    {
      network := network + {name};
      if depends { looped := looped + {name}; } else { looped := looped - {name}; }
    }
  }

  class Detector {
    var diags: seq<Report>
    const batched: set<string>

    constructor (batched: set<string>)
      ensures diags == [] && this.batched == batched
    {
      diags := [];
      this.batched := batched;
    }

    method Walk(stmts: seq<Stmt>, flow: Flow, at: Loc, loops: seq<LoopFrame>)
      modifies this, flow
      ensures flow.Held() == PastAll(stmts, |stmts|, old(flow.Held()))
      ensures diags == old(diags) + Reports(SitesIn(stmts, |stmts|, at, old(flow.Held()), loops), batched)
      decreases stmts, 1
    {
      hide Sites, Past, Reports;
      ghost var t := flow.Held();
      NothingMet(batched);
      var k := 0;
      while k < |stmts|
        invariant k <= |stmts|
        invariant flow.Held() == PastAll(stmts, k, t)
        invariant diags == old(diags) + Reports(SitesIn(stmts, k, at, t, loops), batched)
      {
        ReportsAppend(SitesIn(stmts, k, at, t, loops), Sites(stmts[k], at + [k], PastAll(stmts, k, t), loops), batched);
        WalkStmt(stmts[k], flow, at + [k], loops);
        k := k + 1;
      }
    }

    method WalkStmt(s: Stmt, flow: Flow, at: Loc, loops: seq<LoopFrame>)
      modifies this, flow
      ensures flow.Held() == Past(s, old(flow.Held()))
      ensures diags == old(diags) + Reports(Sites(s, at, old(flow.Held()), loops), batched)
      decreases s, 0
    {
      match s
      case FetchS(f) => VisitFetch(f, flow, at, loops);
      case LetS(name, value) => flow.Assign(name, FreeVars(value));
      case ParallelS(stmts) => Walk(stmts, flow, at, loops);
      case ForEachS(loopVar, iter, stmts) => VisitFor(loopVar, iter, stmts, flow, at, loops);
      case ExprS(expr, bind) =>
        if expr.Match? {
          assert expr < s;
          VisitMatch(expr.scrutinee, expr.arms, flow, at, loops);
        }
        if bind.Some? { flow.Assign(bind.value.name, FreeVars(expr)); }
      case _ =>
    }

    /** The body is walked with a copy, so nothing it binds escapes. */
    method VisitFor(loopVar: string, iter: Expr, stmts: seq<Stmt>, flow: Flow, at: Loc, loops: seq<LoopFrame>)
      modifies this
      ensures diags == old(diags) + Reports(Sites(ForEachS(loopVar, iter, stmts), at, flow.Held(), loops), batched)
      decreases stmts, 2
    {
      var fetched := !(FreeVars(iter) !! flow.network);
      var child := new Flow(flow.Held());
      child.EnterLoop(loopVar, fetched);
      Walk(stmts, child, at, loops + [LoopFrame(loopVar, iter, fetched)]);
    }

    method VisitMatch(scrutinee: Expr, arms: seq<Arm>, flow: Flow, at: Loc, loops: seq<LoopFrame>)
      modifies this
      ensures diags == old(diags) + Reports(ArmSites(scrutinee, arms, |arms|, at, flow.Held(), loops), batched)
      decreases arms, 1
    {
      hide SitesOfArm, Reports;
      NothingMet(batched);
      ghost var t := flow.Held();
      var k := 0;
      while k < |arms|
        invariant k <= |arms| && flow.Held() == t
        invariant diags == old(diags) + Reports(ArmSites(scrutinee, arms, k, at, t, loops), batched)
      {
        ReportsAppend(ArmSites(scrutinee, arms, k, at, t, loops), SitesOfArm(scrutinee, arms[k], at + [k], t, loops),
            batched);
        VisitArm(scrutinee, arms[k], flow, at + [k], loops);
        k := k + 1;
      }
    }

    /** What the pattern binds inherits the provenance of the scrutinee. */
    method VisitArm(scrutinee: Expr, arm: Arm, flow: Flow, at: Loc, loops: seq<LoopFrame>)
      modifies this
      ensures diags == old(diags) + Reports(SitesOfArm(scrutinee, arm, at, flow.Held(), loops), batched)
      decreases arm, 0
    {
      hide SitesIn;
      var child := new Flow(flow.Held());
      child.Capture(PatternBinds(arm.pattern), !(FreeVars(scrutinee) !! flow.network),
          !(FreeVars(scrutinee) !! flow.looped));
      assert arm.body < arm;
      if arm.body.Block? { Walk(arm.body.stmts, child, at, loops); }
    }

    method VisitFetch(f: FetchStmt, flow: Flow, at: Loc, loops: seq<LoopFrame>)
      modifies this, flow
      ensures flow.Held() == AfterFetch(f, old(flow.Held()))
      ensures diags == old(diags) + ReportsOf(Site(at, f, DependsOnLoop(f, old(flow.Held())), loops), batched)
      ensures diags == old(diags) + Reports([Site(at, f, DependsOnLoop(f, old(flow.Held())), loops)], batched)
    {
      var depends := !(InputVars(f, false) !! flow.looped);
      if loops != [] {
        var inner := loops[|loops| - 1];
        if depends {
          if !AutoFusable(f, inner.loopVar, batched) { diags := diags + [Report(at, PerElement, inner, |loops|)]; }
        } else if f.httpMethod == "GET" || f.httpMethod == "HEAD" {
          diags := diags + [Report(at, LoopInvariant, inner, |loops|)];
        }
      }
      if f.bind.Some? { flow.Bind(f.bind.value.name, depends); }
      assert [Site(at, f, depends, loops)][..0] == [];
    }
  }

  lemma NothingMet(batched: set<string>)
    ensures Reports([], batched) == []
  {
    hide Vars;
  }
}
