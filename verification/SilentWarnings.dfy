/** When a per-element fetch is not warned about because the optimizer is to batch it, and whether it does. */
module SilentWarnings {
  import opened Wrappers
  import opened Ast
  import opened Frames
  import opened Ir
  import opened Fusion
  import opened LoopFusion
  import opened Lowering
  import opened BatchRules
  import opened LoopTaint
  import opened LoopInvariance

  // ---------- loops, and what stands directly in them ----------

  datatype LoopAt = LoopAt(at: Loc, loopVar: string, iter: Expr, stmts: seq<Stmt>)

  /** Every loop in a statement that stands at `at`. */
  function Loops(s: Stmt, at: Loc): seq<LoopAt>
    decreases s, 0
  {
    hide *;
    match s
    case ParallelS(stmts) => LoopsIn(stmts, |stmts|, at)
    case ForEachS(loopVar, iter, stmts) => [LoopAt(at, loopVar, iter, stmts)] + LoopsIn(stmts, |stmts|, at)
    case ExprS(expr, _) => if expr.Match? then assert expr < s; ArmLoops(expr.arms, |expr.arms|, at) else []
    case _ => []
  }

  function LoopsIn(stmts: seq<Stmt>, k: nat, at: Loc): seq<LoopAt>
    requires k <= |stmts|
    decreases stmts, k
  {
    hide *;
    if k == 0 then [] else LoopsIn(stmts, k - 1, at) + Loops(stmts[k - 1], at + [k - 1])
  }

  function ArmLoops(arms: seq<Arm>, k: nat, at: Loc): seq<LoopAt>
    requires k <= |arms|
    decreases arms, k
  {
    hide *;
    if k == 0 then [] else ArmLoops(arms, k - 1, at) + LoopsOfArm(arms[k - 1], at + [k - 1])
  }

  function LoopsOfArm(arm: Arm, at: Loc): seq<LoopAt>
    decreases arm, 0
  {
    hide *;
    assert arm.body < arm;
    if arm.body.Block? then LoopsIn(arm.body.stmts, |arm.body.stmts|, at) else []
  }

  /** Where the statements outside groups stand. */
  function Places(stmts: seq<Stmt>, k: nat, at: Loc): (r: seq<Loc>)
    requires k <= |stmts|
    ensures |r| == |Ungrouped(stmts, k)|
    decreases stmts, 1, k
  {
    if k == 0 then [] else Places(stmts, k - 1, at) + PlacesOf(stmts[k - 1], at + [k - 1])
  }

  function PlacesOf(s: Stmt, at: Loc): (r: seq<Loc>)
    ensures |r| == |UngroupedStmt(s)|
    decreases s, 0
  {
    match s
    case ParallelS(stmts) => Places(stmts, |stmts|, at)
    case UsingMockS(_) => []
    case _ => [at]
  }

  /** The loop as the optimizer meets it: lowered, with the batch rules filled in. */
  function LoopIr(l: LoopAt, rules: map<string, BatchRule>): ForEachIr {
    ForEachIr(l.loopVar, l.iter, Annotated(LowerBody(l.stmts), rules), BodyCanReturn(LowerBody(l.stmts)))
  }

  /** `loc` is the place of statement `j` of the loop, not counting groups. */
  predicate StandsIn(l: LoopAt, j: nat, loc: Loc) {
    j < |Ungrouped(l.stmts, |l.stmts|)| && Places(l.stmts, |l.stmts|, l.at)[j] == loc
  }

  /** A loop of the program holds the fetch at `loc` directly, not within an arm. */
  ghost predicate Direct(stmts: seq<Stmt>, loc: Loc) {
    exists l, j: nat :: l in LoopsIn(stmts, |stmts|, []) && StandsIn(l, j, loc)
        && Ungrouped(l.stmts, |l.stmts|)[j].FetchS?
  }

  /** The fetch at `loc` is moved out of a loop of the program. */
  ghost predicate Hoisted(stmts: seq<Stmt>, rules: map<string, BatchRule>, loc: Loc) {
    hide *;
    exists l, j: nat :: l in LoopsIn(stmts, |stmts|, []) && StandsIn(l, j, loc)
      && j < |LoopIr(l, rules).body.nodes| && Hoistable(LoopIr(l, rules), LoopIr(l, rules).body.nodes[j])
  }

  /** Kept silent: the detector, to which the endpoints `batched` have a batch rule, takes the fetch for one
      that the optimizer batches. */
  predicate Silent(x: Site, batched: set<string>) {
    hide *;
    x.loops != [] && AutoFusable(x.f, x.loops[|x.loops| - 1].loopVar, batched)
  }

  // ---------- a fetch directly in a loop ----------

  lemma {:induction false} LiteralsReadNothing(path: seq<PathSeg>)
    requires hide *; forall i | 0 <= i < |path| :: path[i].Literal?
    ensures PathVars(path, false) == {}
  {
    hide Vars, KeyOf, Groups, HoistedLoop;
    if path != [] { LiteralsReadNothing(path[1..]); }
  }

  /** A silent fetch with a rule meets the optimizer's own conditions wherever it stands directly in a loop. */
  lemma SilentIsHoistable(fe: ForEachIr, n: Node, f: FetchStmt, batched: set<string>, rules: map<string, BatchRule>)
    requires AutoFusable(f, fe.loopVar, batched) && f.endpoint in rules && n.binding == NameOf(f.bind)
    requires n.kind == AnnotatedKind(FetchN(LowerFetch(f)), rules)
    ensures Hoistable(fe, n)
  {
    hide KeyOf, Groups, HoistedLoop, Vars;
    LiteralsReadNothing(Prefix(f.path));
  }

  /** The node of statement `j` of the loop. */
  lemma NodeAt(l: LoopAt, rules: map<string, BatchRule>, j: nat)
    requires hide *; j < |Ungrouped(l.stmts, |l.stmts|)|
    ensures var nodes, s := LoopIr(l, rules).body.nodes, Ungrouped(l.stmts, |l.stmts|)[j];
            && j < |nodes|
            && (s.FetchS?
               ==> nodes[j].kind == AnnotatedKind(FetchN(LowerFetch(s.f)), rules)
                   && nodes[j].binding == NameOf(s.f.bind))
            && (!s.FetchS? ==> !nodes[j].kind.FetchN?)
  {
    hide Vars, KeyOf, Groups;
    LoweredInOrder(l.stmts);
    var n := LowerBody(l.stmts).nodes[j];
    assert IsNodeOf(n, Ungrouped(l.stmts, |l.stmts|)[j]);
    StaysFetch(n.kind, rules);
    hide AnnotatedKind, LowerBody, BodyCanReturn, Ungrouped;
  }

  lemma StaysFetch(k: NodeKind, rules: map<string, BatchRule>)
    ensures AnnotatedKind(k, rules).FetchN? <==> k.FetchN?
  {
  }

  // ---------- locations ----------

  lemma {:induction false} PlacesUnder(stmts: seq<Stmt>, k: nat, at: Loc)
    requires k <= |stmts|
    ensures forall p | p in Places(stmts, k, at) :: Below(at, k, p)
    decreases stmts, 1, k
  {
    if k > 0 {
      PlacesUnder(stmts, k - 1, at);
      PlacesOfOn(stmts[k - 1], at, k - 1);
    }
  }

  lemma {:induction false} PlacesOfOn(s: Stmt, at: Loc, k: nat)
    ensures forall p | p in PlacesOf(s, at + [k]) :: On(at, k, p)
    decreases s, 0
  {
    if s.ParallelS? { PlacesUnder(s.stmts, |s.stmts|, at + [k]); }
    forall p | p in PlacesOf(s, at + [k]) ensures On(at, k, p) {
      if s.ParallelS? { assert Below(at + [k], |s.stmts|, p); } else { assert p == at + [k]; }
      PrefixChain(at, k, p);
    }
  }

  lemma {:induction false} LoopsUnder(s: Stmt, at: Loc)
    ensures forall l | l in Loops(s, at) :: at <= l.at
    decreases s, 0
  {
    match s {
      case ParallelS(stmts) => LoopsInUnder(stmts, |stmts|, at);
      case ForEachS(_, _, stmts) => LoopsInUnder(stmts, |stmts|, at);
      case ExprS(expr, _) => if expr.Match? { ArmLoopsUnder(expr.arms, |expr.arms|, at); }
      case _ =>
    }
  }

  lemma {:induction false} LoopsInUnder(stmts: seq<Stmt>, k: nat, at: Loc)
    requires hide *; k <= |stmts|
    ensures forall l | l in LoopsIn(stmts, k, at) :: Below(at, k, l.at)
    decreases stmts, k
  {
    if k > 0 {
      LoopsInUnder(stmts, k - 1, at);
      LoopsUnder(stmts[k - 1], at + [k - 1]);
      forall l | l in Loops(stmts[k - 1], at + [k - 1]) ensures On(at, k - 1, l.at) { PrefixChain(at, k - 1, l.at); }
    }
  }

  lemma {:induction false} ArmLoopsUnder(arms: seq<Arm>, k: nat, at: Loc)
    requires hide *; k <= |arms|
    ensures forall l | l in ArmLoops(arms, k, at) :: Below(at, k, l.at)
    decreases arms, k
  {
    if k > 0 {
      ArmLoopsUnder(arms, k - 1, at);
      LoopsOfArmOn(arms[k - 1], at, k - 1);
    }
  }

  lemma {:induction false} LoopsOfArmOn(arm: Arm, at: Loc, k: nat)
    ensures forall l | l in LoopsOfArm(arm, at + [k]) :: On(at, k, l.at)
    decreases arm, 0
  {
    assert arm.body < arm;
    if arm.body.Block? { LoopsInUnder(arm.body.stmts, |arm.body.stmts|, at + [k]); }
    forall l | l in LoopsOfArm(arm, at + [k]) ensures On(at, k, l.at) { PrefixChain(at, k, l.at); }
  }

  /** Where a statement of a loop stands is under the loop. */
  lemma StandsUnder(l: LoopAt, j: nat, loc: Loc)
    requires StandsIn(l, j, loc)
    ensures l.at <= loc
  {
    PlacesUnder(l.stmts, |l.stmts|, l.at);
    assert loc in Places(l.stmts, |l.stmts|, l.at);
  }

  // ---------- the fetch met there is the one that stands there ----------

  /** A site at the place of a statement outside groups is that statement, in the same loops. */
  lemma {:induction false} SiteAtPlace(stmts: seq<Stmt>, k: nat, at: Loc, t: Taint, loops: seq<LoopFrame>, j: nat,
      x: Site)
    requires hide *; k <= |stmts| && j < |Ungrouped(stmts, k)| && Ungrouped(stmts, k)[j].FetchS?
    requires x in SitesIn(stmts, k, at, t, loops) && Places(stmts, k, at)[j] == x.at
    ensures Ungrouped(stmts, k)[j] == FetchS(x.f) && x.loops == loops
    decreases stmts, 1, k
  {
    hide Vars, KeyOf, Groups;
    var before := |Ungrouped(stmts, k - 1)|;
    PlacesUnder(stmts, k - 1, at);
    PlacesOfOn(stmts[k - 1], at, k - 1);
    SitesInUnder(stmts, k - 1, at, t, loops);
    SitesOn(stmts[k - 1], at, k - 1, PastAll(stmts, k - 1, t), loops);
    if j < before {
      assert x.at in Places(stmts, k - 1, at);
      assert x in SitesIn(stmts, k - 1, at, t, loops);
      SiteAtPlace(stmts, k - 1, at, t, loops, j, x);
    } else {
      assert x.at == PlacesOf(stmts[k - 1], at + [k - 1])[j - before];
      assert x.at in PlacesOf(stmts[k - 1], at + [k - 1]);
      assert x in Sites(stmts[k - 1], at + [k - 1], PastAll(stmts, k - 1, t), loops);
      SiteOfPlace(stmts[k - 1], at + [k - 1], PastAll(stmts, k - 1, t), loops, j - before, x);
    }
  }

  lemma {:induction false} SiteOfPlace(s: Stmt, at: Loc, t: Taint, loops: seq<LoopFrame>, j: nat, x: Site)
    requires hide *; j < |UngroupedStmt(s)| && UngroupedStmt(s)[j].FetchS?
    requires x in Sites(s, at, t, loops) && PlacesOf(s, at)[j] == x.at
    ensures UngroupedStmt(s)[j] == FetchS(x.f) && x.loops == loops
    decreases s, 0
  {
    hide Vars, KeyOf, Groups;
    if s.ParallelS? { SiteAtPlace(s.stmts, |s.stmts|, at, t, loops, j, x); }
  }

  /** The innermost loop of a site is the one in which it stands directly. */
  ghost predicate MetIn(l: LoopAt, j: nat, x: Site) {
    && j < |Ungrouped(l.stmts, |l.stmts|)| && Ungrouped(l.stmts, |l.stmts|)[j] == FetchS(x.f)
    && x.loops != [] && x.loops[|x.loops| - 1].loopVar == l.loopVar
  }

  lemma {:induction false} SiteInLoop(s: Stmt, at: Loc, t: Taint, loops: seq<LoopFrame>, l: LoopAt, j: nat, x: Site)
    requires hide Vars; l in Loops(s, at) && StandsIn(l, j, x.at) && Ungrouped(l.stmts, |l.stmts|)[j].FetchS?
    requires x in Sites(s, at, t, loops)
    ensures MetIn(l, j, x)
    decreases s, 0
  {
    hide Vars, KeyOf, Groups, HoistedLoop;
    StandsUnder(l, j, x.at);
    match s {
      case ParallelS(stmts) => SiteInLoops(stmts, |stmts|, at, t, loops, l, j, x);
      case ForEachS(loopVar, iter, stmts) =>
        var inner, frames := Inside(loopVar, iter, t), loops + [FrameOf(loopVar, iter, t)];
        if l in LoopsIn(stmts, |stmts|, at) {
          SiteInLoops(stmts, |stmts|, at, inner, frames, l, j, x);
        } else {
          SiteAtPlace(stmts, |stmts|, at, inner, frames, j, x);
        }
      case ExprS(expr, _) =>
        if expr.Match? { SiteInArms(expr.scrutinee, expr.arms, |expr.arms|, at, t, loops, l, j, x); }
      case _ =>
    }
  }

  lemma {:induction false} SiteInLoops(stmts: seq<Stmt>, k: nat, at: Loc, t: Taint, loops: seq<LoopFrame>, l: LoopAt,
      j: nat, x: Site)
    requires hide Vars; k <= |stmts| && l in LoopsIn(stmts, k, at) && StandsIn(l, j, x.at)
             && Ungrouped(l.stmts, |l.stmts|)[j].FetchS?
    requires x in SitesIn(stmts, k, at, t, loops)
    ensures MetIn(l, j, x)
    decreases stmts, k
  {
    hide Vars, KeyOf, Groups, HoistedLoop;
    var s, u := stmts[k - 1], PastAll(stmts, k - 1, t);
    StandsUnder(l, j, x.at);
    LoopsInUnder(stmts, k - 1, at);
    LoopsUnder(s, at + [k - 1]);
    SitesInUnder(stmts, k - 1, at, t, loops);
    SitesOn(s, at, k - 1, u, loops);
    if l in LoopsIn(stmts, k - 1, at) {
      SiteInLoops(stmts, k - 1, at, t, loops, l, j, x);
    } else {
      PrefixChain(at, k - 1, l.at);
      SiteInLoop(s, at + [k - 1], u, loops, l, j, x);
    }
  }

  lemma {:induction false} SiteInArms(scrutinee: Expr, arms: seq<Arm>, k: nat, at: Loc, t: Taint,
      loops: seq<LoopFrame>, l: LoopAt, j: nat, x: Site)
    requires hide Vars; k <= |arms| && l in ArmLoops(arms, k, at) && StandsIn(l, j, x.at)
             && Ungrouped(l.stmts, |l.stmts|)[j].FetchS?
    requires x in ArmSites(scrutinee, arms, k, at, t, loops)
    ensures MetIn(l, j, x)
    decreases arms, k
  {
    hide Vars, KeyOf, Groups, HoistedLoop;
    var arm := arms[k - 1];
    StandsUnder(l, j, x.at);
    ArmLoopsUnder(arms, k - 1, at);
    LoopsOfArmOn(arm, at, k - 1);
    ArmSitesUnder(scrutinee, arms, k - 1, at, t, loops);
    ArmSitesOn(scrutinee, arm, at, k - 1, t, loops);
    if l in ArmLoops(arms, k - 1, at) {
      SiteInArms(scrutinee, arms, k - 1, at, t, loops, l, j, x);
    } else {
      assert arm.body < arm;
      SiteInLoops(arm.body.stmts, |arm.body.stmts|, at + [k - 1], InArm(scrutinee, arm.pattern, t), loops, l, j, x);
    }
  }

  // ---------- the theorem ----------

  /** A fetch kept silent is batched exactly when it stands directly in a loop, also inside `parallel` blocks,
      but not in an arm, and lowering has a rule for its endpoint. */
  lemma SilentByRules(stmts: seq<Stmt>, batched: set<string>, rules: map<string, BatchRule>, x: Site)
    requires hide *; x in SitesIn(stmts, |stmts|, [], CLEAN, []) && Silent(x, batched)
    ensures Hoisted(stmts, rules, x.at) <==> Direct(stmts, x.at) && x.f.endpoint in rules
  {
    hide Vars, KeyOf, Groups, HoistedLoop, LowerBody, SitesIn, LoopsIn, Hoistable;
    if Hoisted(stmts, rules, x.at) { HoistedIsDirect(stmts, rules, x); }
    if Direct(stmts, x.at) && x.f.endpoint in rules {
      var l, j: nat :| l in LoopsIn(stmts, |stmts|, []) && StandsIn(l, j, x.at)
          && Ungrouped(l.stmts, |l.stmts|)[j].FetchS?;
      SiteInLoops(stmts, |stmts|, [], CLEAN, [], l, j, x);
      NodeAt(l, rules, j);
      SilentIsHoistable(LoopIr(l, rules), LoopIr(l, rules).body.nodes[j], x.f, batched, rules);
    }
  }

  lemma HoistedIsDirect(stmts: seq<Stmt>, rules: map<string, BatchRule>, x: Site)
    requires hide *; x in SitesIn(stmts, |stmts|, [], CLEAN, []) && Hoisted(stmts, rules, x.at)
    ensures Direct(stmts, x.at) && x.f.endpoint in rules
  {
    hide Vars, KeyOf, Groups, HoistedLoop, LowerBody, LoopsIn, SitesIn;
    var l, j: nat :| l in LoopsIn(stmts, |stmts|, []) && StandsIn(l, j, x.at)
      && j < |LoopIr(l, rules).body.nodes| && Hoistable(LoopIr(l, rules), LoopIr(l, rules).body.nodes[j]);
    assert Batchable(LoopIr(l, rules).body.nodes[j]);
    NodeAt(l, rules, j);
    SiteInLoops(stmts, |stmts|, [], CLEAN, [], l, j, x);
  }

  /** The same for the endpoints of a program: a silent fetch is batched exactly when it stands directly in a
      loop and its endpoint has a complete rule.  The comment that a silent fetch is always fused is wrong on
      both counts. */
  lemma SilentIsFusedExactly(es: seq<Endpoint>, stmts: seq<Stmt>, x: Site)
    requires hide *; x in SitesIn(stmts, |stmts|, [], CLEAN, []) && Silent(x, Batched(es))
    ensures Hoisted(stmts, Rules(es), x.at) <==> Direct(stmts, x.at) && Ruled(es, x.f.endpoint)
  {
    hide *;
    SilentByRules(stmts, Batched(es), Rules(es), x);
    RulesExactly(es, x.f.endpoint);
  }

  // ---------- a request per element without a warning ----------

  /** `for u in users { match u.kind { _ => { fetch E /users/{u} -> p } } }`. */
  function AskInArm(): seq<Stmt> {
    [ForEachS("u", Ident("users"), OnlyMatch())]
  }

  function OnlyMatch(): seq<Stmt> {
    [ExprS(Expr.Match(Expr.Field(Ident("u"), "kind"), [OnlyArm()]), None)]
  }

  function OnlyArm(): Arm {
    Arm(Wildcard, ArmBody.Block([FetchS(AskUser())]))
  }

  function AskUser(): FetchStmt {
    FetchStmt("GET", "E", [Literal("users"), Param(Ident("u"))], [], None, None, [], Some(Bind("p", None)))
  }

  lemma AskReadsUser()
    ensures InputVars(AskUser(), false) == {"u"}
  {
    var f := AskUser();
    assert f.path[1..] == [Param(Ident("u"))] && f.path[1..][1..] == [];
    assert PathVars(f.path[1..], false) == {"u"};
  }

  lemma OneStatement(s: Stmt, at: Loc, t: Taint, loops: seq<LoopFrame>)
    ensures hide *;
            SitesIn([s], 1, at, t, loops) == Sites(s, at + [0], t, loops) && LoopsIn([s], 1, at) == Loops(s, at + [0])
  {
    hide Vars, KeyOf, Groups, Sites, Loops;
    assert SitesIn([s], 0, at, t, loops) == [] && PastAll([s], 0, t) == t && LoopsIn([s], 0, at) == [];
  }

  lemma OnlyArmHolds(scrutinee: Expr, at: Loc, t: Taint, loops: seq<LoopFrame>)
    requires hide *; "u" in t.looped
    ensures ArmSites(scrutinee, [OnlyArm()], 1, at, t, loops) == [Site(at + [0] + [0], AskUser(), true, loops)]
    ensures ArmLoops([OnlyArm()], 1, at) == []
  {
    hide Vars, KeyOf, Groups, HoistedLoop;
    var inner, x := InArm(scrutinee, Wildcard, t), Site(at + [0] + [0], AskUser(), true, loops);
    AskReadsUser();
    OneStatement(FetchS(AskUser()), at + [0], inner, loops);
    assert Sites(FetchS(AskUser()), at + [0] + [0], inner, loops) == [x];
    hide InputVars, SitesIn, LoopsIn, AskUser;
    assert SitesOfArm(scrutinee, OnlyArm(), at + [0], t, loops) == [x] && LoopsOfArm(OnlyArm(), at + [0]) == [];
    assert ArmSites(scrutinee, [OnlyArm()], 0, at, t, loops) == [] && ArmLoops([OnlyArm()], 0, at) == [];
  }

  /** The only fetch met, which depends on the loop, and the only loop. */
  lemma AskSites()
    ensures hide Vars, Groups; SitesIn(AskInArm(), 1, [], CLEAN, [])
            == [Site([0, 0, 0, 0], AskUser(), true, [FrameOf("u", Ident("users"), CLEAN)])]
    ensures LoopsIn(AskInArm(), 1, []) == [LoopAt([0], "u", Ident("users"), OnlyMatch())]
  {
    hide Vars, KeyOf, Groups, HoistedLoop, OnlyArm, AskUser, ArmSites, ArmLoops, SitesIn, LoopsIn;
    var frame, t := FrameOf("u", Ident("users"), CLEAN), Inside("u", Ident("users"), CLEAN);
    OnlyArmHolds(Expr.Field(Ident("u"), "kind"), [0, 0], t, [frame]);
    assert [] + [0] == [0] && [0] + [0] == [0, 0] && [0, 0] + [0] + [0] == [0, 0, 0, 0];
    OneStatement(OnlyMatch()[0], [0], t, [frame]);
    OneStatement(AskInArm()[0], [], CLEAN, []);
    assert [] + [frame] == [frame];
  }

  /** The only loop has no fetch directly in it. */
  lemma AskIsNotDirect(loc: Loc)
    ensures !Direct(AskInArm(), loc)
  {
    hide Vars, KeyOf, Groups, HoistedLoop;
    AskSites();
    hide LoopsIn, Places;
    assert Ungrouped(OnlyMatch(), 0) == [];
    assert Ungrouped(OnlyMatch(), 1) == UngroupedStmt(OnlyMatch()[0]);
  }

  lemma AskIsFusable(batched: set<string>)
    requires "E" in batched
    ensures AutoFusable(AskUser(), "u", batched)
  {
    assert FreeVars(Ident("u")) == {"u"};
  }

  lemma OneReport(x: Site, batched: set<string>)
    ensures Reports([x], batched) == ReportsOf(x, batched)
  {
    hide Vars, KeyOf, Groups;
    assert [x][..0] == [];
    assert Reports([x], batched) == Reports([], batched) + ReportsOf(x, batched);
  }

  /** In an arm, a request per element goes without a warning and without being batched, whatever the rules. */
  lemma SilentInAnArm(es: seq<Endpoint>)
    requires hide Vars, KeyOf, Groups; "E" in Batched(es)
    ensures var sites := SitesIn(AskInArm(), 1, [], CLEAN, []);
            && |sites| == 1 && sites[0].depends && sites[0].loops != []
            && Reports(sites, Batched(es)) == [] && !Hoisted(AskInArm(), Rules(es), sites[0].at)
  {
    hide Vars, KeyOf, Groups, HoistedLoop, LowerBody;
    AskSites();
    var x := SitesIn(AskInArm(), 1, [], CLEAN, [])[0];
    AskIsNotDirect(x.at);
    AskIsFusable(Batched(es));
    OneReport(x, Batched(es));
    hide AutoFusable, Direct, Hoisted, SitesIn, Reports;
    SilentIsFusedExactly(es, AskInArm(), x);
  }

  /** `for u in users { fetch E /users/{u} -> p }`. */
  function AskDirectly(): seq<Stmt> {
    [ForEachS("u", Ident("users"), [FetchS(AskUser())])]
  }

  /** The only fetch met, which depends on the loop, and the only loop. */
  lemma AskDirectlySites()
    ensures hide Vars, Groups; SitesIn(AskDirectly(), 1, [], CLEAN, [])
            == [Site([0, 0], AskUser(), true, [FrameOf("u", Ident("users"), CLEAN)])]
    ensures LoopsIn(AskDirectly(), 1, []) == [LoopAt([0], "u", Ident("users"), [FetchS(AskUser())])]
  {
    hide Vars, KeyOf, Groups, HoistedLoop;
    var frame, t, inner := FrameOf("u", Ident("users"), CLEAN), Inside("u", Ident("users"), CLEAN), [FetchS(AskUser())];
    AskReadsUser();
    hide AskUser, InputVars, FrameOf;
    OneStatement(inner[0], [0], t, [frame]);
    OneStatement(AskDirectly()[0], [], CLEAN, []);
    assert [] + [0] == [0] && [0] + [0] == [0, 0] && [] + [frame] == [frame];
    hide SitesIn, LoopsIn;
  }

  lemma AskStandsDirectly()
    ensures hide *; Direct(AskDirectly(), [0, 0])
  {
    hide Vars, KeyOf, Groups, HoistedLoop;
    AskDirectlySites();
    hide AskUser, SitesIn, LoopsIn;
    var inner := [FetchS(AskUser())];
    assert Ungrouped(inner, 0) == [] && Ungrouped(inner, 1) == inner;
    assert Places(inner, 0, [0]) == [] && [0] + [0] == [0, 0];
    assert Places(inner, 1, [0]) == [[0, 0]];
    var l := LoopAt([0], "u", Ident("users"), inner);
    assert l in LoopsIn(AskDirectly(), 1, []);
    assert StandsIn(l, 0, [0, 0]);
  }

  /** Directly in its loop, a request per element goes without a warning as soon as the endpoint has a `batch`
      setting, and is batched exactly when the setting is complete. */
  lemma DirectNeedsARule(es: seq<Endpoint>)
    requires hide Vars, KeyOf, Groups; "E" in Batched(es)
    ensures var sites := SitesIn(AskDirectly(), 1, [], CLEAN, []);
            && |sites| == 1 && sites[0].depends && sites[0].loops != [] && Direct(AskDirectly(), sites[0].at)
            && Reports(sites, Batched(es)) == []
            && (Hoisted(AskDirectly(), Rules(es), sites[0].at) <==> Ruled(es, "E"))
  {
    hide Vars, KeyOf, Groups, HoistedLoop, LowerBody;
    AskDirectlySites();
    AskStandsDirectly();
    var x := SitesIn(AskDirectly(), 1, [], CLEAN, [])[0];
    AskIsFusable(Batched(es));
    OneReport(x, Batched(es));
    hide AutoFusable, Direct, Hoisted, SitesIn, Reports;
    SilentIsFusedExactly(es, AskDirectly(), x);
  }

  /** `endpoint E { batch: param("ids") }`. */
  function Keyless(): Endpoint {
    Endpoint("E", [Setting("batch", [Expr.Call(Ident("param"), [Expr.Str([Lit("ids")])])])])
  }

  /** That endpoint: a request per element, directly in its loop, without a warning and without being batched. */
  lemma KeylessIsNotBatched()
    ensures hide Vars, KeyOf, Groups; var es, sites := [Keyless()], SitesIn(AskDirectly(), 1, [], CLEAN, []);
            && |sites| == 1 && sites[0].depends && sites[0].loops != [] && Direct(AskDirectly(), sites[0].at)
            && Reports(sites, Batched(es)) == [] && !Hoisted(AskDirectly(), Rules(es), sites[0].at)
  {
    hide Vars, KeyOf, Groups, HoistedLoop, LowerBody;
    var es, e := [Keyless()], Keyless();
    var values := e.settings[0].values;
    assert e.settings[0] in e.settings && HasBatch(e) && e in es;
    BatchedExactly(es, "E");
    assert values[..0] == [] && Given(values, "key") == None;
    assert BatchValues(e.settings) == Some(values) && RuleOf(e) == None;
    assert !Ruled(es, "E");
    hide Batched, Rules, SitesIn, Reports, Direct, Hoisted;
    DirectNeedsARule(es);
  }
}
