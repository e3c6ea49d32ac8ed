/** Which fetches the detector meets, and what it reports of each. */
module Detections {
  import opened Wrappers
  import opened Ast
  import opened Frames
  import opened LoopTaint

  /** A fetch, and the variables of the loops around it, outermost first. */
  datatype Found = Found(f: FetchStmt, loopVars: seq<string>)

  /** What stands at a location: indices of statements and, in a match, of its arms. */
  function FetchAt(stmts: seq<Stmt>, loc: Loc): Option<Found>
    decreases |loc|, 0
  {
    hide *;
    if loc == [] || loc[0] >= |stmts| then None else Below(stmts[loc[0]], loc[1..])
  }

  function Below(s: Stmt, rest: Loc): Option<Found>
    decreases |rest|, 1
  {
    hide *;
    match s
    case FetchS(f) => if rest == [] then Some(Found(f, [])) else None
    case ParallelS(stmts) => FetchAt(stmts, rest)
    case ForEachS(loopVar, _, stmts) =>
      var inner := FetchAt(stmts, rest);
      if inner.None? then None else Some(Found(inner.value.f, [loopVar] + inner.value.loopVars))
    case ExprS(expr, _) =>
      if expr.Match? && rest != [] && rest[0] < |expr.arms| && expr.arms[rest[0]].body.Block?
      then FetchAt(expr.arms[rest[0]].body.stmts, rest[1..]) else None
    case _ => None
  }

  function LoopVars(loops: seq<LoopFrame>): seq<string> {
    hide *;
    seq(|loops|, i requires 0 <= i < |loops| => loops[i].loopVar)
  }

  /** Site `x`, met from `at` within `loops`, is what stands at `loc`. */
  predicate Met(found: Option<Found>, at: Loc, loc: Loc, loops: seq<LoopFrame>, x: Site) {
    hide *;
    && x.at == at + loc && found.Some? && found.value.f == x.f
    && LoopVars(x.loops) == LoopVars(loops) + found.value.loopVars
  }

  /** One step further down. */
  lemma MetBelow(found: Option<Found>, at: Loc, i: nat, rest: Loc, loops: seq<LoopFrame>, x: Site)
    ensures hide *; Met(found, at + [i], rest, loops, x) <==> Met(found, at, [i] + rest, loops, x)
  {
    assert at + [i] + rest == at + ([i] + rest);
  }

  /** Out of a loop. */
  lemma MetAround(found: Option<Found>, at: Loc, loc: Loc, loops: seq<LoopFrame>, frame: LoopFrame, x: Site)
    requires hide *; found.Some?
    ensures Met(found, at, loc, loops + [frame], x)
       <==> Met(Some(Found(found.value.f, [frame.loopVar] + found.value.loopVars)), at, loc, loops, x)
  {
    assert LoopVars(loops + [frame]) + found.value.loopVars
        == LoopVars(loops) + ([frame.loopVar] + found.value.loopVars);
  }

  lemma {:induction false} SiteStands(stmts: seq<Stmt>, k: nat, at: Loc, t: Taint, loops: seq<LoopFrame>, x: Site)
      returns (loc: Loc)
    requires hide *; k <= |stmts| && x in SitesIn(stmts, k, at, t, loops)
    ensures loc != [] && loc[0] < k && Met(FetchAt(stmts, loc), at, loc, loops, x)
    decreases stmts, k
  {
    hide Sites, PastAll, Below, Met;
    if x in SitesIn(stmts, k - 1, at, t, loops) {
      loc := SiteStands(stmts, k - 1, at, t, loops, x);
    } else {
      var rest := SiteStandsIn(stmts[k - 1], at + [k - 1], PastAll(stmts, k - 1, t), loops, x);
      loc := [k - 1] + rest;
      assert loc[1..] == rest;
      MetBelow(Below(stmts[k - 1], rest), at, k - 1, rest, loops, x);
    }
  }

  lemma {:induction false} SiteStandsIn(s: Stmt, at: Loc, t: Taint, loops: seq<LoopFrame>, x: Site) returns (rest: Loc)
    requires hide *; x in Sites(s, at, t, loops)
    ensures Met(Below(s, rest), at, rest, loops, x)
    decreases s, 0
  {
    hide Inside, DependsOnLoop, FetchAt, ArmSites, SitesIn, FrameOf;
    match s {
      case FetchS(f) => rest := []; assert at + [] == at && LoopVars(loops) + [] == LoopVars(loops);
      case ParallelS(stmts) => rest := SiteStands(stmts, |stmts|, at, t, loops, x);
      case ForEachS(loopVar, iter, stmts) =>
        var frame := FrameOf(loopVar, iter, t);
        rest := SiteStands(stmts, |stmts|, at, Inside(loopVar, iter, t), loops + [frame], x);
        MetAround(FetchAt(stmts, rest), at, rest, loops, frame, x);
        assert frame.loopVar == loopVar by { FrameNames(loopVar, iter, t); }
      case ExprS(expr, _) =>
        var i, inner := SiteStandsInArm(expr.scrutinee, expr.arms, |expr.arms|, at, t, loops, x);
        rest := [i] + inner;
        assert rest[1..] == inner;
    }
  }

  lemma FrameNames(loopVar: string, iter: Expr, t: Taint)
    ensures hide *; FrameOf(loopVar, iter, t).loopVar == loopVar
  {
  }

  lemma {:induction false} SiteStandsInArm(scrutinee: Expr, arms: seq<Arm>, k: nat, at: Loc, t: Taint,
      loops: seq<LoopFrame>, x: Site) returns (i: nat, rest: Loc)
    requires hide *; k <= |arms| && x in ArmSites(scrutinee, arms, k, at, t, loops)
    ensures i < k && arms[i].body.Block? && Met(FetchAt(arms[i].body.stmts, rest), at, [i] + rest, loops, x)
    decreases arms, k
  {
    hide InArm, FetchAt, SitesIn, Met;
    if x in ArmSites(scrutinee, arms, k - 1, at, t, loops) {
      i, rest := SiteStandsInArm(scrutinee, arms, k - 1, at, t, loops, x);
    } else {
      i := k - 1;
      var arm := arms[i];
      assert arm.body < arm;
      rest := SiteStands(arm.body.stmts, |arm.body.stmts|, at + [i], InArm(scrutinee, arm.pattern, t), loops, x);
      MetBelow(FetchAt(arm.body.stmts, rest), at, i, rest, loops, x);
    }
  }

  /** Every fetch is met. */
  lemma {:induction false} FetchIsMet(stmts: seq<Stmt>, k: nat, at: Loc, t: Taint, loops: seq<LoopFrame>, loc: Loc)
      returns (x: Site)
    requires hide *; k <= |stmts| && loc != [] && loc[0] < k && FetchAt(stmts, loc).Some?
    ensures x in SitesIn(stmts, k, at, t, loops) && Met(FetchAt(stmts, loc), at, loc, loops, x)
    decreases stmts, k
  {
    hide Sites, PastAll, Below, Met;
    if loc[0] < k - 1 {
      x := FetchIsMet(stmts, k - 1, at, t, loops, loc);
    } else {
      x := FetchIsMetIn(stmts[k - 1], at + [k - 1], PastAll(stmts, k - 1, t), loops, loc[1..]);
      assert [k - 1] + loc[1..] == loc;
      MetBelow(Below(stmts[k - 1], loc[1..]), at, k - 1, loc[1..], loops, x);
    }
  }

  lemma {:induction false} FetchIsMetIn(s: Stmt, at: Loc, t: Taint, loops: seq<LoopFrame>, rest: Loc) returns (x: Site)
    requires hide *; Below(s, rest).Some?
    ensures x in Sites(s, at, t, loops) && Met(Below(s, rest), at, rest, loops, x)
    decreases s, 0
  {
    hide Inside, DependsOnLoop, SitesIn, ArmSites, FrameOf;
    match s {
      case FetchS(f) =>
        x := Site(at, f, DependsOnLoop(f, t), loops);
        assert at + [] == at && LoopVars(loops) + [] == LoopVars(loops);
      case ParallelS(stmts) => x := FetchIsMet(stmts, |stmts|, at, t, loops, rest);
      case ForEachS(loopVar, iter, stmts) =>
        var frame := FrameOf(loopVar, iter, t);
        x := FetchIsMet(stmts, |stmts|, at, Inside(loopVar, iter, t), loops + [frame], rest);
        MetAround(FetchAt(stmts, rest), at, rest, loops, frame, x);
        assert frame.loopVar == loopVar by { FrameNames(loopVar, iter, t); }
      case ExprS(expr, _) =>
        x := FetchIsMetInArm(expr.scrutinee, expr.arms, |expr.arms|, at, t, loops, rest[0], rest[1..]);
        assert [rest[0]] + rest[1..] == rest;
    }
  }

  lemma {:induction false} FetchIsMetInArm(scrutinee: Expr, arms: seq<Arm>, k: nat, at: Loc, t: Taint,
      loops: seq<LoopFrame>, i: nat, rest: Loc) returns (x: Site)
    requires hide *; i < k <= |arms| && arms[i].body.Block? && FetchAt(arms[i].body.stmts, rest).Some?
    ensures x in ArmSites(scrutinee, arms, k, at, t, loops)
    ensures Met(FetchAt(arms[i].body.stmts, rest), at, [i] + rest, loops, x)
    decreases arms, k
  {
    hide InArm, Met, SitesIn;
    StandsSomewhere(arms[i].body.stmts, rest);
    if i < k - 1 {
      x := FetchIsMetInArm(scrutinee, arms, k - 1, at, t, loops, i, rest);
    } else {
      var arm := arms[i];
      assert arm.body < arm;
      x := FetchIsMet(arm.body.stmts, |arm.body.stmts|, at + [i], InArm(scrutinee, arm.pattern, t), loops, rest);
      MetBelow(FetchAt(arm.body.stmts, rest), at, i, rest, loops, x);
    }
  }

  /** The detector meets exactly the fetches of the program, at any depth, each where it stands and within the loops
      that enclose it. */
  lemma SitesExactly(stmts: seq<Stmt>, t: Taint, loc: Loc, f: FetchStmt, loopVars: seq<string>)
    ensures hide *; FetchAt(stmts, loc) == Some(Found(f, loopVars)) <==>
              exists x :: x in SitesIn(stmts, |stmts|, [], t, []) && x.at == loc && x.f == f
                          && LoopVars(x.loops) == loopVars
  {
    hide FetchAt, SitesIn;
    if FetchAt(stmts, loc) == Some(Found(f, loopVars)) {
      StandsSomewhere(stmts, loc);
      var x := FetchIsMet(stmts, |stmts|, [], t, [], loc);
      assert [] + loc == loc && LoopVars([]) + loopVars == loopVars;
    }
    if x :| x in SitesIn(stmts, |stmts|, [], t, []) && x.at == loc && x.f == f && LoopVars(x.loops) == loopVars {
      var at := SiteStands(stmts, |stmts|, [], t, [], x);
      assert [] + at == at && LoopVars([]) + FetchAt(stmts, at).value.loopVars == FetchAt(stmts, at).value.loopVars;
    }
  }

  lemma StandsSomewhere(stmts: seq<Stmt>, loc: Loc)
    requires hide *; FetchAt(stmts, loc).Some?
    ensures loc != [] && loc[0] < |stmts|
  {
  }

  // ---------- what is reported ----------

  /** A GET that the compiler would batch: plain, bound, of a batched endpoint, with a literal path up to a last
      segment that reads the loop variable and nothing else. */
  predicate Batchable(f: FetchStmt, loopVar: string, batched: set<string>) {
    hide *;
    && f.httpMethod == "GET" && f.endpoint in batched && f.bind.Some?
    && f.params == [] && f.pipeline == [] && f.idempotencyKey == None && |f.path| > 1
    && (forall i | 0 <= i < |f.path| - 1 :: !f.path[i].Param?)
    && f.path[|f.path| - 1].Param? && FreeVars(f.path[|f.path| - 1].e) == {loopVar}
  }

  /** A report is made of a fetch in a loop: as one request for each element when it varies with the loop, unless it
      is batched, and as the same request again when it does not and is a read. */
  lemma ReportsExactly(sites: seq<Site>, batched: set<string>, r: Report)
    ensures hide *; r in Reports(sites, batched) <==>
              exists x :: && x in sites && x.loops != [] && r.at == x.at
                          && r.inner == x.loops[|x.loops| - 1] && r.depth == |x.loops|
                          && if r.verdict.PerElement? then x.depends && !Batchable(x.f, r.inner.loopVar, batched)
                             else !x.depends && (x.f.httpMethod == "GET" || x.f.httpMethod == "HEAD")
  {
    hide FreeVars, Reports;
    if r in Reports(sites, batched) {
      var x := ReportHasSite(sites, batched, r);
    }
    if x :| && x in sites && x.loops != [] && r.at == x.at
            && r.inner == x.loops[|x.loops| - 1] && r.depth == |x.loops|
            && if r.verdict.PerElement? then x.depends && !Batchable(x.f, r.inner.loopVar, batched)
               else !x.depends && (x.f.httpMethod == "GET" || x.f.httpMethod == "HEAD") {
      assert r in ReportsOf(x, batched);
      SiteIsReported(sites, batched, x, r);
    }
  }

  lemma {:induction false} SiteIsReported(sites: seq<Site>, batched: set<string>, x: Site, r: Report)
    requires hide *; x in sites && r in ReportsOf(x, batched)
    ensures r in Reports(sites, batched)
  {
    hide ReportsOf;
    if x != sites[|sites| - 1] { SiteIsReported(sites[..|sites| - 1], batched, x, r); }
  }
}
