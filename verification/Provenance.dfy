/** What the provenance of a name means: where it was last bound, and from what. */
module Provenance {
  import opened Wrappers
  import opened Ast
  import opened Frames
  import opened LoopTaint
  import opened Lowering

  /** The name that a statement outside groups binds in the scope it stands in. */
  function BoundBy(s: Stmt): Option<string> {
    hide *;
    match s
    case FetchS(f) => if f.bind.Some? then Some(f.bind.value.name) else None
    case LetS(name, _) => Some(name)
    case ExprS(_, bind) => if bind.Some? then Some(bind.value.name) else None
    case _ => None
  }

  predicate Flat(stmts: seq<Stmt>) {
    hide *;
    forall s | s in stmts :: !s.ParallelS?
  }

  /** Statement `j` is the last of the first `k` to bind `x`. */
  predicate Binder(stmts: seq<Stmt>, k: nat, x: string, j: nat)
    requires k <= |stmts|
  {
    hide *;
    j < k && BoundBy(stmts[j]) == Some(x) && forall i: nat | j < i < k :: BoundBy(stmts[i]) != Some(x)
  }

  /** After `k` statements `x` holds fetched data: it was last bound by a fetch, or from something that did. */
  ghost predicate Fetched(stmts: seq<Stmt>, k: nat, t: Taint, x: string)
    requires k <= |stmts|
    decreases k
  {
    hide *;
    if forall j: nat | j < k :: BoundBy(stmts[j]) != Some(x) then x in t.network
    else exists j: nat | j < k :: Binder(stmts, k, x, j) && match stmts[j]
      case FetchS(_) => true
      case LetS(_, value) => exists y | y in FreeVars(value) :: Fetched(stmts, j, t, y)
      case ExprS(expr, _) => exists y | y in FreeVars(expr) :: Fetched(stmts, j, t, y)
      case _ => false
  }

  /** After `k` statements `x` varies with an enclosing loop: it was last bound from something that did, or by a
      fetch that sends something that did. */
  ghost predicate Varies(stmts: seq<Stmt>, k: nat, t: Taint, x: string)
    requires k <= |stmts|
    decreases k
  {
    hide *;
    if forall j: nat | j < k :: BoundBy(stmts[j]) != Some(x) then x in t.looped
    else exists j: nat | j < k :: Binder(stmts, k, x, j) && match stmts[j]
      case FetchS(f) => exists y | y in InputVars(f, false) :: Varies(stmts, j, t, y)
      case LetS(_, value) => exists y | y in FreeVars(value) :: Varies(stmts, j, t, y)
      case ExprS(expr, _) => exists y | y in FreeVars(expr) :: Varies(stmts, j, t, y)
      case _ => false
  }

  lemma StillBound(stmts: seq<Stmt>, k: nat, t: Taint, x: string)
    requires hide *; 0 < k <= |stmts| && BoundBy(stmts[k - 1]) != Some(x)
    ensures Fetched(stmts, k, t, x) <==> Fetched(stmts, k - 1, t, x)
    ensures Varies(stmts, k, t, x) <==> Varies(stmts, k - 1, t, x)
  {
    hide InputVars, FreeVars;
    forall j: nat | j < k ensures Binder(stmts, k, x, j) <==> j < k - 1 && Binder(stmts, k - 1, x, j) {}
  }

  lemma NewlyBound(stmts: seq<Stmt>, k: nat, x: string)
    requires hide *; 0 < k <= |stmts| && BoundBy(stmts[k - 1]) == Some(x)
    ensures Binder(stmts, k, x, k - 1) && forall j: nat | j < k && Binder(stmts, k, x, j) :: j == k - 1
  {
  }

  lemma JustFetched(stmts: seq<Stmt>, k: nat, t: Taint, x: string)
    requires hide *; 0 < k <= |stmts| && BoundBy(stmts[k - 1]) == Some(x)
    ensures var s := stmts[k - 1];
            Fetched(stmts, k, t, x) <==>
              || s.FetchS?
              || (s.LetS? && exists y | y in FreeVars(s.value) :: Fetched(stmts, k - 1, t, y))
              || (s.ExprS? && exists y | y in FreeVars(s.expr) :: Fetched(stmts, k - 1, t, y))
  {
    hide FreeVars;
    NewlyBound(stmts, k, x);
    hide Binder;
  }

  lemma JustVaried(stmts: seq<Stmt>, k: nat, t: Taint, x: string)
    requires hide *; 0 < k <= |stmts| && BoundBy(stmts[k - 1]) == Some(x)
    ensures var s := stmts[k - 1];
            Varies(stmts, k, t, x) <==>
              || (s.FetchS? && exists y | y in InputVars(s.f, false) :: Varies(stmts, k - 1, t, y))
              || (s.LetS? && exists y | y in FreeVars(s.value) :: Varies(stmts, k - 1, t, y))
              || (s.ExprS? && exists y | y in FreeVars(s.expr) :: Varies(stmts, k - 1, t, y))
  {
    hide FreeVars, InputVars;
    NewlyBound(stmts, k, x);
    hide Binder;
  }

  lemma {:induction false} FlatProvenance(stmts: seq<Stmt>, k: nat, t: Taint, x: string)
    requires hide *; k <= |stmts| && Flat(stmts)
    ensures x in PastAll(stmts, k, t).network <==> Fetched(stmts, k, t, x)
    ensures x in PastAll(stmts, k, t).looped <==> Varies(stmts, k, t, x)
    decreases k
  {
    hide InputVars, FreeVars;
    if k > 0 {
      var s, u := stmts[k - 1], PastAll(stmts, k - 1, t);
      assert s in stmts;
      forall y
          ensures (y in u.network <==> Fetched(stmts, k - 1, t, y)) && (y in u.looped <==> Varies(stmts, k - 1, t, y)) {
        FlatProvenance(stmts, k - 1, t, y);
      }
      assert PastAll(stmts, k, t) == Past(s, u);
      if BoundBy(s) != Some(x) {
        StillBound(stmts, k, t, x);
      } else {
        JustFetched(stmts, k, t, x);
        JustVaried(stmts, k, t, x);
      }
      hide Fetched, Varies, PastAll;
    }
  }

  // ---------- groups ----------

  lemma {:induction false} PastPrefix(a: seq<Stmt>, b: seq<Stmt>, k: nat, t: Taint)
    requires hide *; k <= |a|
    ensures PastAll(a + b, k, t) == PastAll(a, k, t)
    decreases k
  {
    hide Past;
    if k > 0 { PastPrefix(a, b, k - 1, t); }
  }

  lemma {:induction false} PastAppend(a: seq<Stmt>, b: seq<Stmt>, k: nat, t: Taint)
    requires hide *; k <= |b|
    ensures PastAll(a + b, |a| + k, t) == PastAll(b, k, PastAll(a, |a|, t))
    decreases k
  {
    hide Past;
    if k == 0 { PastPrefix(a, b, |a|, t); } else { PastAppend(a, b, k - 1, t); }
  }

  lemma {:induction false} PastUngrouped(stmts: seq<Stmt>, k: nat, t: Taint)
    requires hide *; k <= |stmts|
    ensures PastAll(stmts, k, t) == PastAll(Ungrouped(stmts, k), |Ungrouped(stmts, k)|, t)
    decreases stmts, 1, k
  {
    hide Past, UngroupedStmt;
    if k > 0 {
      PastUngrouped(stmts, k - 1, t);
      var flat := UngroupedStmt(stmts[k - 1]);
      PastStatement(stmts[k - 1], PastAll(stmts, k - 1, t));
      PastAppend(Ungrouped(stmts, k - 1), flat, |flat|, t);
    }
  }

  lemma {:induction false} PastStatement(s: Stmt, t: Taint)
    ensures hide *; Past(s, t) == PastAll(UngroupedStmt(s), |UngroupedStmt(s)|, t)
    decreases s, 0
  {
    hide AfterFetch, Assign;
    if s.ParallelS? {
      PastUngrouped(s.stmts, |s.stmts|, t);
    } else if !s.UsingMockS? {
      assert UngroupedStmt(s) == [s] && PastAll([s], 0, t) == t && PastAll([s], 1, t) == Past(s, t);
    }
  }

  /** The walk's two sets of names are exactly the names that hold fetched data and those that vary with a loop;
      groups change nothing. */
  lemma ProvenanceExactly(stmts: seq<Stmt>, t: Taint, x: string)
    ensures hide *; var flat, past := Ungrouped(stmts, |stmts|), PastAll(stmts, |stmts|, t);
            && (x in past.network <==> Fetched(flat, |flat|, t, x))
            && (x in past.looped <==> Varies(flat, |flat|, t, x))
  {
    hide Fetched, Varies, PastAll, Ungrouped;
    var flat := Ungrouped(stmts, |stmts|);
    PastUngrouped(stmts, |stmts|, t);
    FlatHasNoGroups(stmts, |stmts|);
    FlatProvenance(flat, |flat|, t, x);
  }

  /** A loop's variable holds fetched data exactly when its collection does, and always varies; the frame says so. */
  lemma LoopProvenance(loopVar: string, iter: Expr, t: Taint, x: string)
    ensures hide *; FrameOf(loopVar, iter, t).fetched <==> exists y | y in FreeVars(iter) :: y in t.network
    ensures x in Inside(loopVar, iter, t).looped <==> x == loopVar || x in t.looped
    ensures x in Inside(loopVar, iter, t).network
        <==> if x == loopVar then exists y | y in FreeVars(iter) :: y in t.network else x in t.network
  {
    hide FreeVars;
  }
}
