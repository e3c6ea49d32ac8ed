/** The provenance analysis behind the N+1 warnings: which fetches depend on an enclosing loop. */
module LoopTaint {
  import opened Wrappers
  import opened Ast
  import opened Frames

  /** The names that hold fetched data, and those that vary with an enclosing loop. */
  datatype Taint = Taint(network: set<string>, looped: set<string>)

  /** An enclosing loop: its variable, the collection it walks, and whether that was fetched. */
  datatype LoopFrame = LoopFrame(loopVar: string, collection: Expr, fetched: bool)

  /** Where a statement stands: indices of statements and arms, outermost first. */
  type Loc = seq<nat>

  /** A fetch as the analysis meets it. */
  datatype Site = Site(at: Loc, f: FetchStmt, depends: bool, loops: seq<LoopFrame>)

  datatype Verdict = PerElement | LoopInvariant

  datatype Report = Report(at: Loc, verdict: Verdict, inner: LoopFrame, depth: nat)

  function Mark(names: set<string>, name: string, on: bool): set<string> {
    if on then names + {name} else names - {name}
  }

  /** A newly bound name has the provenance of what it was computed from. */
  function Assign(t: Taint, name: string, from: set<string>): Taint {
    Taint(Mark(t.network, name, !(from !! t.network)), Mark(t.looped, name, !(from !! t.looped)))
  }

  function InputVars(f: FetchStmt, exact: bool): set<string> {
    hide *;
    PathVars(f.path, exact) + FieldsVars(f.params, exact)
    + (if f.body.Some? then Vars(f.body.value, exact) else {})
    + (if f.idempotencyKey.Some? then Vars(f.idempotencyKey.value, exact) else {})
    + OpsVars(f.pipeline, exact)
  }

  predicate DependsOnLoop(f: FetchStmt, t: Taint) { !(InputVars(f, false) !! t.looped) }

  function AfterFetch(f: FetchStmt, t: Taint): Taint {
    hide *;
    if f.bind.None? then t
    else Taint(t.network + {f.bind.value.name}, Mark(t.looped, f.bind.value.name, DependsOnLoop(f, t)))
  }

  function Inside(loopVar: string, iter: Expr, t: Taint): Taint {
    Taint(Mark(t.network, loopVar, !(FreeVars(iter) !! t.network)), t.looped + {loopVar})
  }

  function InArm(scrutinee: Expr, p: Pattern, t: Taint): Taint {
    Taint(if FreeVars(scrutinee) !! t.network then t.network else t.network + PatternBinds(p),
          if FreeVars(scrutinee) !! t.looped then t.looped else t.looped + PatternBinds(p))
  }

  function FrameOf(loopVar: string, iter: Expr, t: Taint): LoopFrame {
    LoopFrame(loopVar, iter, !(FreeVars(iter) !! t.network))
  }

  // ---------- the walk ----------

  /** The provenance after a statement.  Scopes are lexical: nothing leaves a loop or an arm. */
  function Past(s: Stmt, t: Taint): Taint
    decreases s
  {
    hide *;
    match s
    case FetchS(f) => AfterFetch(f, t)
    case LetS(name, value) => Assign(t, name, FreeVars(value))
    case ParallelS(stmts) => PastAll(stmts, |stmts|, t)
    case ExprS(expr, bind) => if bind.Some? then Assign(t, bind.value.name, FreeVars(expr)) else t
    case _ => t
  }

  /** After the first `k` statements. */
  function PastAll(stmts: seq<Stmt>, k: nat, t: Taint): Taint
    requires k <= |stmts|
    decreases stmts, k
  {
    hide *;
    if k == 0 then t else Past(stmts[k - 1], PastAll(stmts, k - 1, t))
  }

  /** The fetches in a statement at `at`, in the order in which they are met. */
  function Sites(s: Stmt, at: Loc, t: Taint, loops: seq<LoopFrame>): seq<Site>
    decreases s, 0
  {
    hide *;
    match s
    case FetchS(f) => [Site(at, f, DependsOnLoop(f, t), loops)]
    case ParallelS(stmts) => SitesIn(stmts, |stmts|, at, t, loops)
    case ForEachS(loopVar, iter, stmts) =>
      SitesIn(stmts, |stmts|, at, Inside(loopVar, iter, t), loops + [FrameOf(loopVar, iter, t)])
    case ExprS(expr, _) =>
      if expr.Match? then assert expr < s; ArmSites(expr.scrutinee, expr.arms, |expr.arms|, at, t, loops) else []
    case _ => []
  }

  function SitesIn(stmts: seq<Stmt>, k: nat, at: Loc, t: Taint, loops: seq<LoopFrame>): seq<Site>
    requires k <= |stmts|
    decreases stmts, k
  {
    hide *;
    if k == 0 then []
    else SitesIn(stmts, k - 1, at, t, loops) + Sites(stmts[k - 1], at + [k - 1], PastAll(stmts, k - 1, t), loops)
  }

  function ArmSites(scrutinee: Expr, arms: seq<Arm>, k: nat, at: Loc, t: Taint, loops: seq<LoopFrame>): seq<Site>
    requires k <= |arms|
    decreases arms, k
  {
    hide *;
    if k == 0 then []
    else ArmSites(scrutinee, arms, k - 1, at, t, loops) + SitesOfArm(scrutinee, arms[k - 1], at + [k - 1], t, loops)
  }

  function SitesOfArm(scrutinee: Expr, arm: Arm, at: Loc, t: Taint, loops: seq<LoopFrame>): seq<Site>
    decreases arm, 0
  {
    hide *;
    assert arm.body < arm;
    if arm.body.Block? then
      SitesIn(arm.body.stmts, |arm.body.stmts|, at, InArm(scrutinee, arm.pattern, t), loops)
    else []
  }

  // ---------- the reports ----------

  /** A batched GET with a literal prefix whose last segment reads the loop variable and nothing else. */
  predicate AutoFusable(f: FetchStmt, loopVar: string, batched: set<string>) {
    hide *;
    && f.endpoint in batched && f.httpMethod == "GET" && f.params == [] && f.pipeline == []
    && f.idempotencyKey.None? && f.bind.Some? && |f.path| >= 2
    && (forall i | 0 <= i < |f.path| - 1 :: f.path[i].Literal?)
    && f.path[|f.path| - 1].Param? && FreeVars(f.path[|f.path| - 1].e) == {loopVar}
  }

  function ReportsOf(x: Site, batched: set<string>): seq<Report> {
    hide *;
    if x.loops == [] then []
    else
      var inner := x.loops[|x.loops| - 1];
      if x.depends then
        if AutoFusable(x.f, inner.loopVar, batched) then [] else [Report(x.at, PerElement, inner, |x.loops|)]
      else if x.f.httpMethod == "GET" || x.f.httpMethod == "HEAD" then [Report(x.at, LoopInvariant, inner, |x.loops|)]
      else []
  }

  function Reports(sites: seq<Site>, batched: set<string>): seq<Report> {
    hide *;
    if sites == [] then [] else Reports(sites[..|sites| - 1], batched) + ReportsOf(sites[|sites| - 1], batched)
  }

  lemma {:induction false} ReportsAppend(a: seq<Site>, b: seq<Site>, batched: set<string>)
    ensures Reports(a + b, batched) == Reports(a, batched) + Reports(b, batched)
  {
    hide Vars;
    if b == [] {
      assert a + b == a;
    } else {
      assert (a + b)[..|a + b| - 1] == a + b[..|b| - 1];
      ReportsAppend(a, b[..|b| - 1], batched);
    }
  }

  /** Every report is about one of the fetches met. */
  lemma {:induction false} ReportHasSite(sites: seq<Site>, batched: set<string>, r: Report) returns (x: Site)
    requires r in Reports(sites, batched)
    ensures x in sites && r in ReportsOf(x, batched)
  {
    hide Vars;
    if r in ReportsOf(sites[|sites| - 1], batched) {
      x := sites[|sites| - 1];
    } else {
      x := ReportHasSite(sites[..|sites| - 1], batched, r);
    }
  }

  // ---------- locations tell fetches apart ----------

  ghost predicate Under(at: Loc, sites: seq<Site>) {
    forall x | x in sites :: at <= x.at
  }

  lemma PrefixChain(a: Loc, k: nat, b: Loc)
    requires a + [k] <= b
    ensures a <= b && |b| > |a| && b[|a|] == k
  {
    assert (a + [k])[..|a|] == a;
  }

  lemma {:induction false} SitesUnder(s: Stmt, at: Loc, t: Taint, loops: seq<LoopFrame>)
    ensures Under(at, Sites(s, at, t, loops))
    decreases s, 0
  {
    hide Vars;
    match s {
      case ParallelS(stmts) => SitesInUnder(stmts, |stmts|, at, t, loops);
      case ForEachS(loopVar, iter, stmts) =>
        SitesInUnder(stmts, |stmts|, at, Inside(loopVar, iter, t), loops + [FrameOf(loopVar, iter, t)]);
      case ExprS(expr, _) => if expr.Match? { ArmSitesUnder(expr.scrutinee, expr.arms, |expr.arms|, at, t, loops); }
      case _ =>
    }
  }

  lemma {:induction false} SitesInUnder(stmts: seq<Stmt>, k: nat, at: Loc, t: Taint, loops: seq<LoopFrame>)
    requires hide *; k <= |stmts|
    ensures forall x | x in SitesIn(stmts, k, at, t, loops) :: at <= x.at && |x.at| > |at| && x.at[|at|] < k
    decreases stmts, k
  {
    hide Vars;
    if k > 0 {
      SitesInUnder(stmts, k - 1, at, t, loops);
      SitesUnder(stmts[k - 1], at + [k - 1], PastAll(stmts, k - 1, t), loops);
      forall x | x in Sites(stmts[k - 1], at + [k - 1], PastAll(stmts, k - 1, t), loops)
        ensures at <= x.at && |x.at| > |at| && x.at[|at|] == k - 1
      {
        PrefixChain(at, k - 1, x.at);
      }
    }
  }

  lemma {:induction false} ArmSitesUnder(scrutinee: Expr, arms: seq<Arm>, k: nat, at: Loc, t: Taint,
      loops: seq<LoopFrame>)
    requires hide *; k <= |arms|
    ensures forall x | x in ArmSites(scrutinee, arms, k, at, t, loops) :: at <= x.at && |x.at| > |at| && x.at[|at|] < k
    decreases arms, k
  {
    hide Vars;
    if k > 0 {
      ArmSitesUnder(scrutinee, arms, k - 1, at, t, loops);
      var arm := arms[k - 1];
      assert arm.body < arm;
      if arm.body.Block? {
        SitesInUnder(arm.body.stmts, |arm.body.stmts|, at + [k - 1], InArm(scrutinee, arm.pattern, t), loops);
        forall x | x in SitesIn(arm.body.stmts, |arm.body.stmts|, at + [k - 1], InArm(scrutinee, arm.pattern, t), loops)
          ensures at <= x.at && |x.at| > |at| && x.at[|at|] == k - 1
        {
          PrefixChain(at, k - 1, x.at);
        }
      }
    }
  }
}
