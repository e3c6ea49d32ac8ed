/** The exhaustiveness check of a `match` on a `Result`, against the patterns as they match at run
    time. */
module Exhaustiveness {
  import opened Wrappers
  import opened Ast
  import opened Values
  import opened Evaluator
  import opened Labels

  // ---------- the check ----------

  predicate IsCatchAll(p: Pattern) { p.Wildcard? || p.Binding? }

  predicate CoversOk(p: Pattern) { p.Ctor? && p.name == "Ok" }

  predicate CoversErr(p: Pattern) { p.Ctor? && p.name == "Err" && (p.args == [] || IsCatchAll(p.args[0])) }

  predicate CoversVariant(p: Pattern, variant: string) {
    p.Ctor? && p.name == "Err" && p.args != [] && p.args[0].Ctor? && p.args[0].name == variant
  }

  predicate Some1(ps: seq<Pattern>, variant: string) { exists p :: p in ps && CoversVariant(p, variant) }

  /** The variants of a closed domain that no pattern names, in order. */
  function Uncovered(ps: seq<Pattern>, variants: seq<string>): seq<string> {
    if variants == [] then []
    else
      (if Some1(ps, variants[0]) then [] else ["Err(" + variants[0] + ")"]) + Uncovered(ps, variants[1..])
  }

  /** What the check reports as missing. */
  function Missing(ps: seq<Pattern>, domain: ErrDomain): seq<string> {
    if exists p :: p in ps && IsCatchAll(p) then []
    else
      (if exists p :: p in ps && CoversOk(p) then [] else ["Ok(...)"])
      + (if exists p :: p in ps && CoversErr(p) then []
         else match domain
           case Variants(vs) => Uncovered(ps, vs)
           case Open => ["Err(e)"])
  }

  lemma OneMoreArm(ps: seq<Pattern>, p: Pattern)
    ensures (exists q :: q in ps + [p] && IsCatchAll(q)) <==> (exists q :: q in ps && IsCatchAll(q)) || IsCatchAll(p)
    ensures (exists q :: q in ps + [p] && CoversOk(q)) <==> (exists q :: q in ps && CoversOk(q)) || CoversOk(p)
    ensures (exists q :: q in ps + [p] && CoversErr(q)) <==> (exists q :: q in ps && CoversErr(q)) || CoversErr(p)
    ensures forall v :: Some1(ps + [p], v) <==> Some1(ps, v) || CoversVariant(p, v)
  {
    assert p in ps + [p];
    forall v ensures Some1(ps + [p], v) <==> Some1(ps, v) || CoversVariant(p, v) {
      if Some1(ps, v) { var q :| q in ps && CoversVariant(q, v); assert q in ps + [p]; }
    }
  }

  /** What the flags of the pass over the arms mean. */
  ghost predicate Seen(ps: seq<Pattern>, hasOk: bool, catchAll: bool, errCatchAll: bool, covered: set<string>) {
    && (catchAll <==> exists p :: p in ps && IsCatchAll(p))
    && (hasOk <==> exists p :: p in ps && CoversOk(p))
    && (errCatchAll <==> exists p :: p in ps && CoversErr(p))
    && (forall v :: v in covered <==> Some1(ps, v))
  }

  /** The check, by one pass over the arms and one over the declared variants. */
  method CheckExhaustive(ps: seq<Pattern>, domain: ErrDomain) returns (missing: seq<string>)
    ensures missing == Missing(ps, domain)
  {
    var hasOk, catchAll, errCatchAll := false, false, false;
    var covered: set<string> := {};
    for i := 0 to |ps|
      invariant Seen(ps[..i], hasOk, catchAll, errCatchAll, covered)
    {
      var p := ps[i];
      assert ps[..i + 1] == ps[..i] + [p];
      OneMoreArm(ps[..i], p);
      if IsCatchAll(p) {
        catchAll := true;
      } else if p.name == "Ok" {
        hasOk := true;
      } else if p.name == "Err" {
        if p.args == [] || IsCatchAll(p.args[0]) {
          errCatchAll := true;
        } else {
          covered := covered + {p.args[0].name};
        }
      }
    }
    assert ps[..|ps|] == ps;
    missing := Report(ps, domain, hasOk, catchAll, errCatchAll, covered);
  }

  /** The next variant is missing unless some arm names it. */
  lemma NextVariant(ps: seq<Pattern>, vs: seq<string>, i: nat, missing: seq<string>)
    requires i < |vs|
    ensures missing + Uncovered(ps, vs[i..])
         == (if Some1(ps, vs[i]) then missing else missing + ["Err(" + vs[i] + ")"]) + Uncovered(ps, vs[i + 1..])
  {
    hide Some1;
    assert vs[i..][0] == vs[i] && vs[i..][1..] == vs[i + 1..];
  }

  method Report(ghost ps: seq<Pattern>, domain: ErrDomain, hasOk: bool, catchAll: bool, errCatchAll: bool,
      covered: set<string>)
    returns (missing: seq<string>)
    requires Seen(ps, hasOk, catchAll, errCatchAll, covered)
    ensures missing == Missing(ps, domain)
  {
    hide IsCatchAll, CoversOk, CoversErr, Some1;
    if catchAll { return []; }
    missing := [];
    if !hasOk { missing := ["Ok(...)"]; }
    if !errCatchAll {
      match domain {
        case Open => missing := missing + ["Err(e)"];
        case Variants(vs) =>
          ghost var before := missing;
          for i := 0 to |vs|
            invariant missing + Uncovered(ps, vs[i..]) == before + Uncovered(ps, vs)
          {
            NextVariant(ps, vs, i, missing);
            if vs[i] !in covered { missing := missing + ["Err(" + vs[i] + ")"]; }
          }
      }
    }
  }

  // ---------- run time ----------

  predicate Fits(p: Pattern, v: Value) { MatchPattern(p, v).Some? }

  predicate Matched(ps: seq<Pattern>, v: Value) {
    exists p :: p in ps && Fits(p, v)
  }

  /** The values a `Result` with this error domain can have. */
  predicate InDomain(v: Value, domain: ErrDomain) {
    v.Ok? || (v.Err? && (domain.Variants? ==> v.err.variant in domain.variants))
  }

  ghost predicate Exhaustive(ps: seq<Pattern>, domain: ErrDomain) {
    forall v | InDomain(v, domain) :: Matched(ps, v)
  }

  /** Only `_` and bindings match everything: every constructor pattern fails on some value. */
  lemma IrrefutableExactly(p: Pattern)
    ensures IsCatchAll(p) <==> forall v :: Fits(p, v)
  {
    if p.Ctor? {
      assert !Fits(p, if p.name == "None" then Value.Int(0) else Value.Null);
    } else {
      forall v ensures Fits(p, v) { CatchAllMatches(p, v); }
    }
  }

  lemma CatchAllMatches(p: Pattern, v: Value)
    requires IsCatchAll(p)
    ensures MatchPattern(p, v).Some?
  {
  }

  /** The patterns the check is meant for. */
  predicate Shaped(p: Pattern) {
    match p
    case Ctor("Ok", args) => args != [] && IsCatchAll(args[0])
    case Ctor("Err", args) =>
      args == [] || IsCatchAll(args[0]) || args[0].args == [] || IsCatchAll(args[0].args[0])
    case Ctor(_, _) => false
    case _ => true
  }

  lemma ShapedMatches(p: Pattern, v: Value)
    requires Shaped(p) && (v.Ok? || v.Err?)
    ensures MatchPattern(p, v).Some? <==>
            IsCatchAll(p) || (v.Ok? && CoversOk(p)) || (v.Err? && (CoversErr(p) || CoversVariant(p, v.err.variant)))
  {
    if p.Ctor? && p.args != [] {
      var q := p.args[0];
      if v.Ok? && IsCatchAll(q) { CatchAllMatches(q, v.inner); }
      if v.Err? && q.Ctor? && q.args != [] && IsCatchAll(q.args[0]) { CatchAllMatches(q.args[0], Payload(v.err)); }
    }
  }

  lemma {:induction false} UncoveredNone(ps: seq<Pattern>, variants: seq<string>)
    ensures Uncovered(ps, variants) == [] <==> forall v | v in variants :: Some1(ps, v)
  {
    if variants != [] { UncoveredNone(ps, variants[1..]); }
  }

  /** An error variant that no pattern names. */
  lemma {:induction false} FreshVariant(ps: seq<Pattern>) returns (v: string)
    ensures !Some1(ps, v)
    ensures forall p | p in ps && p.Ctor? && p.args != [] && p.args[0].Ctor? :: |p.args[0].name| < |v|
  {
    v := "x";
    if ps != [] {
      var rest := FreshVariant(ps[1..]);
      var p := ps[0];
      v := rest + "x" + if p.Ctor? && p.args != [] && p.args[0].Ctor? then p.args[0].name else "";
      forall q | q in ps && q.Ctor? && q.args != [] && q.args[0].Ctor? ensures |q.args[0].name| < |v| {
        assert q == p || q in ps[1..];
      }
    }
  }

  function Failing(variant: string): Value { Value.Err(ErrValue(variant, None, "", None)) }

  lemma ByShape(ps: seq<Pattern>, v: Value)
    requires (forall p | p in ps :: Shaped(p)) && (v.Ok? || v.Err?)
    ensures Matched(ps, v) <==>
            || (exists p :: p in ps && IsCatchAll(p))
            || (v.Ok? && exists p :: p in ps && CoversOk(p))
            || (v.Err? && ((exists p :: p in ps && CoversErr(p)) || Some1(ps, v.err.variant)))
  {
    forall p | p in ps
      ensures Fits(p, v) <==>
              IsCatchAll(p) || (v.Ok? && CoversOk(p)) || (v.Err? && (CoversErr(p) || CoversVariant(p, v.err.variant)))
    {
      ShapedMatches(p, v);
    }
  }

  /** The check reports nothing exactly when every value the `Result` can have is matched by some arm. */
  lemma CheckIsExact(ps: seq<Pattern>, domain: ErrDomain)
    requires forall p | p in ps :: Shaped(p)
    ensures Missing(ps, domain) == [] <==> Exhaustive(ps, domain)
  {
    hide MatchPattern;
    if domain.Variants? { UncoveredNone(ps, domain.variants); }
    if Missing(ps, domain) == [] {
      forall v | InDomain(v, domain) ensures Matched(ps, v) { ByShape(ps, v); }
    }
    if Exhaustive(ps, domain) {
      assert InDomain(Value.Ok(Value.Null), domain);
      ByShape(ps, Value.Ok(Value.Null));
      match domain {
        case Open =>
          var unnamed := FreshVariant(ps);
          assert InDomain(Failing(unnamed), domain);
          ByShape(ps, Failing(unnamed));
        case Variants(vs) =>
          forall v | v in vs ensures (exists p :: p in ps && IsCatchAll(p)) || (exists p :: p in ps && CoversErr(p))
              || Some1(ps, v) {
            assert InDomain(Failing(v), domain);
            ByShape(ps, Failing(v));
          }
      }
    }
  }

  // ---------- any patterns ----------

  /** What is left of a pattern for a value that is not null: `Some(p)` matches what `p` matches. */
  function Core(p: Pattern): Pattern {
    if p.Ctor? && p.name == "Some" && p.args != [] then Core(p.args[0]) else p
  }

  predicate Solid(ps: seq<Pattern>) { exists p :: p in ps && IsCatchAll(Core(p)) }

  /** Something takes every value but null, and something takes null. */
  predicate Total(ps: seq<Pattern>) {
    Solid(ps) && exists p :: p in ps && (IsCatchAll(p) || (p.Ctor? && p.name == "None"))
  }

  predicate IsOkOf(p: Pattern) { p.Ctor? && p.name == "Ok" && p.args != [] }

  predicate IsErrOf(p: Pattern, variant: string) { CoversVariant(p, variant) && p.args[0].args != [] }

  /** The patterns that the values of a success meet. */
  function OkArgs(ps: seq<Pattern>): seq<Pattern> {
    if ps == [] then [] else (if IsOkOf(Core(ps[0])) then [Core(ps[0]).args[0]] else []) + OkArgs(ps[1..])
  }

  /** The patterns that the payloads of a variant meet. */
  function VariantArgs(ps: seq<Pattern>, variant: string): seq<Pattern> {
    if ps == [] then []
    else
      (if IsErrOf(Core(ps[0]), variant) then [Core(ps[0]).args[0].args[0]] else []) + VariantArgs(ps[1..], variant)
  }

  predicate AnyErr(ps: seq<Pattern>) { exists p :: p in ps && CoversErr(Core(p)) }

  predicate AnyOf(ps: seq<Pattern>, variant: string) {
    exists p :: p in ps && CoversVariant(Core(p), variant) && Core(p).args[0].args == []
  }

  predicate VariantCovered(ps: seq<Pattern>, variant: string) {
    Solid(ps) || AnyErr(ps) || AnyOf(ps, variant) || Total(VariantArgs(ps, variant))
  }

  /** What a check would have to look at: the arguments of `Ok` and the payloads of the variants as well. */
  predicate Covered(ps: seq<Pattern>, domain: ErrDomain) {
    && (Solid(ps) || Total(OkArgs(ps)))
    && match domain
       case Open => Solid(ps) || AnyErr(ps)
       case Variants(vs) => forall v | v in vs :: VariantCovered(ps, v)
  }

  lemma {:induction false} CoreFits(p: Pattern, v: Value)
    requires !v.Null?
    ensures Fits(p, v) <==> Fits(Core(p), v)
    decreases p
  {
    if p.Ctor? && p.name == "Some" && p.args != [] { CoreFits(p.args[0], v); }
  }

  lemma {:induction false} CoreIsCore(p: Pattern)
    ensures !(Core(p).Ctor? && Core(p).name == "Some" && Core(p).args != [])
    decreases p
  {
    if p.Ctor? && p.name == "Some" && p.args != [] { CoreIsCore(p.args[0]); }
  }

  /** Patterns take every value exactly when they are total: a number meets no constructor but `Some`. */
  lemma TotalExactly(ps: seq<Pattern>)
    ensures Total(ps) <==> forall v :: Matched(ps, v)
  {
    if Total(ps) {
      forall v ensures Matched(ps, v) { TotalTakes(ps, v); }
    }
    if forall v :: Matched(ps, v) {
      assert Matched(ps, Value.Int(0)) && Matched(ps, Value.Null);
      var p :| p in ps && Fits(p, Value.Int(0));
      CoreFits(p, Value.Int(0));
      CoreIsCore(p);
      assert IsCatchAll(Core(p));
      var q :| q in ps && Fits(q, Value.Null);
      assert IsCatchAll(q) || (q.Ctor? && q.name == "None");
    }
  }

  lemma TotalTakes(ps: seq<Pattern>, v: Value)
    requires Total(ps)
    ensures Matched(ps, v)
  {
    if v.Null? {
      var p :| p in ps && (IsCatchAll(p) || (p.Ctor? && p.name == "None"));
      assert Fits(p, v);
    } else {
      SolidTakes(ps, v);
    }
  }

  lemma SolidTakes(ps: seq<Pattern>, v: Value)
    requires Solid(ps) && !v.Null?
    ensures Matched(ps, v)
  {
    var p :| p in ps && IsCatchAll(Core(p));
    CatchAllMatches(Core(p), v);
    CoreFits(p, v);
  }

  lemma MatchedOne(ps: seq<Pattern>, v: Value)
    requires ps != []
    ensures Matched(ps, v) <==> Fits(ps[0], v) || Matched(ps[1..], v)
  {
    hide Fits;
  }

  lemma FirstOrRest(ps: seq<Pattern>, variant: string)
    requires ps != []
    ensures Solid(ps) <==> IsCatchAll(Core(ps[0])) || Solid(ps[1..])
    ensures AnyErr(ps) <==> CoversErr(Core(ps[0])) || AnyErr(ps[1..])
    ensures AnyOf(ps, variant)
            <==> (CoversVariant(Core(ps[0]), variant) && Core(ps[0]).args[0].args == []) || AnyOf(ps[1..], variant)
  {
    hide IsCatchAll, CoversErr, Core;
  }

  lemma {:induction false} OkMeets(ps: seq<Pattern>, v: Value)
    ensures Matched(ps, Value.Ok(v)) <==> Solid(ps) || Matched(OkArgs(ps), v)
  {
    if ps != [] {
      var p, rest := ps[0], OkArgs(ps[1..]);
      OkMeets(ps[1..], v);
      MatchedOne(ps, Value.Ok(v));
      FirstOrRest(ps, "");
      CoreFits(p, Value.Ok(v));
      CoreIsCore(p);
      if IsOkOf(Core(p)) {
        assert OkArgs(ps)[0] == Core(p).args[0] && OkArgs(ps)[1..] == rest;
        MatchedOne(OkArgs(ps), v);
      }
    }
  }

  lemma {:induction false} ErrMeets(ps: seq<Pattern>, e: ErrValue)
    ensures Matched(ps, Value.Err(e))
            <==> Solid(ps) || AnyErr(ps) || AnyOf(ps, e.variant) || Matched(VariantArgs(ps, e.variant), Payload(e))
  {
    if ps != [] {
      var p, rest, all := ps[0], VariantArgs(ps[1..], e.variant), VariantArgs(ps, e.variant);
      ErrMeets(ps[1..], e);
      MatchedOne(ps, Value.Err(e));
      FirstOrRest(ps, e.variant);
      CoreFits(p, Value.Err(e));
      CoreIsCore(p);
      ErrOrPayload(Core(p), e);
      if IsErrOf(Core(p), e.variant) {
        assert all[0] == Core(p).args[0].args[0] && all[1..] == rest;
        MatchedOne(all, Payload(e));
      }
    }
  }

  lemma ErrOrPayload(p: Pattern, e: ErrValue)
    requires !(p.Ctor? && p.name == "Some" && p.args != [])
    ensures Fits(p, Value.Err(e))
            <==> || IsCatchAll(p)
                 || CoversErr(p)
                 || (CoversVariant(p, e.variant) && p.args[0].args == [])
                 || (IsErrOf(p, e.variant) && Fits(p.args[0].args[0], Payload(e)))
  {
    if p.Ctor? && p.name == "Err" {
      assert MatchPattern(p, Value.Err(e)) == MatchErr(p.args, Value.Err(e));
      if p.args != [] && p.args[0].Ctor? && p.args[0].args != [] {
        assert Fits(p.args[0].args[0], Payload(e)) <==> MatchPattern(p.args[0].args[0], Payload(e)).Some?;
      }
    }
  }

  lemma OkExactly(ps: seq<Pattern>)
    ensures (Solid(ps) || Total(OkArgs(ps))) <==> forall v :: Matched(ps, Value.Ok(v))
  {
    hide Total, Solid, Matched;
    TotalExactly(OkArgs(ps));
    forall v ensures Matched(ps, Value.Ok(v)) <==> Solid(ps) || Matched(OkArgs(ps), v) { OkMeets(ps, v); }
  }

  lemma VariantExactly(ps: seq<Pattern>, variant: string)
    ensures VariantCovered(ps, variant) <==> forall e: ErrValue | e.variant == variant :: Matched(ps, Value.Err(e))
  {
    hide Total, Solid, Matched, AnyErr, AnyOf;
    var all := VariantArgs(ps, variant);
    TotalExactly(all);
    forall e: ErrValue | e.variant == variant
      ensures Matched(ps, Value.Err(e)) <==> Solid(ps) || AnyErr(ps) || AnyOf(ps, variant) || Matched(all, Payload(e))
    {
      ErrMeets(ps, e);
    }
    if forall e: ErrValue | e.variant == variant :: Matched(ps, Value.Err(e)) {
      forall v ensures Solid(ps) || AnyErr(ps) || AnyOf(ps, variant) || Matched(all, v) {
        var e := ErrValue(variant, None, "", Some(v));
        assert Matched(ps, Value.Err(e)) && Payload(e) == v;
      }
    }
  }

  function Cores(ps: seq<Pattern>): seq<Pattern> {
    seq(|ps|, i requires 0 <= i < |ps| => Core(ps[i]))
  }

  /** A variant that no arm names can only be met by an arm for any error. */
  lemma UnnamedVariant(ps: seq<Pattern>) returns (v: string)
    ensures VariantCovered(ps, v) ==> Solid(ps) || AnyErr(ps)
  {
    v := FreshVariant(Cores(ps));
    forall p | p in ps ensures !CoversVariant(Core(p), v) {
      var i: nat :| i < |ps| && ps[i] == p;
      assert Cores(ps)[i] == Core(p);
      assert Core(p) in Cores(ps);
    }
    NoArgs(ps, v);
  }

  lemma {:induction false} NoArgs(ps: seq<Pattern>, variant: string)
    requires forall p | p in ps :: !CoversVariant(Core(p), variant)
    ensures VariantArgs(ps, variant) == []
  {
    if ps != [] {
      assert ps[0] in ps;
      NoArgs(ps[1..], variant);
    }
  }

  /** For any patterns, nested ones included: every value of the `Result` is matched by some arm exactly when
      the arms cover success, the errors and, where they look into them, all arguments and payloads. */
  lemma ExhaustiveExactly(ps: seq<Pattern>, domain: ErrDomain)
    ensures Exhaustive(ps, domain) <==> Covered(ps, domain)
  {
    hide Matched, Solid, AnyErr;
    OkExactly(ps);
    if Exhaustive(ps, domain) {
      forall v ensures Matched(ps, Value.Ok(v)) { assert InDomain(Value.Ok(v), domain); }
      match domain {
        case Open =>
          var v := UnnamedVariant(ps);
          VariantExactly(ps, v);
          forall e: ErrValue | e.variant == v ensures Matched(ps, Value.Err(e)) {
            assert InDomain(Value.Err(e), domain);
          }
        case Variants(vs) =>
          forall v | v in vs ensures VariantCovered(ps, v) {
            VariantExactly(ps, v);
            forall e: ErrValue | e.variant == v ensures Matched(ps, Value.Err(e)) {
              assert InDomain(Value.Err(e), domain);
            }
          }
      }
    }
    if Covered(ps, domain) {
      forall v | InDomain(v, domain) ensures Matched(ps, v) {
        if v.Ok? {
          assert v == Value.Ok(v.inner);
        } else {
          VariantExactly(ps, v.err.variant);
          assert VariantCovered(ps, v.err.variant);
          assert v == Value.Err(v.err);
        }
      }
    }
  }

  // ---------- patterns the check does not look into ----------

  /** The check accepts `Ok(p)` and `Err(e)` for any `p`, but they are exhaustive only when `p` cannot
      fail. */
  lemma OkArgumentIsNotChecked(p: Pattern, domain: ErrDomain)
    ensures var ps := [Ctor("Ok", [p]), Ctor("Err", [Binding("e")])];
            Missing(ps, domain) == [] && (Exhaustive(ps, domain) <==> IsCatchAll(p))
  {
    var ps := [Ctor("Ok", [p]), Ctor("Err", [Binding("e")])];
    assert ps[0] in ps && ps[1] in ps;
    assert CoversOk(ps[0]) && CoversErr(ps[1]);
    IrrefutableExactly(p);
    if IsCatchAll(p) {
      CheckIsExact(ps, domain);
    } else {
      var v :| !Fits(p, v);
      assert InDomain(Value.Ok(v), domain);
      assert !Fits(ps[0], Value.Ok(v)) && !Fits(ps[1], Value.Ok(v));
      assert !Matched(ps, Value.Ok(v));
    }
  }

  /** Nor does it look at the payload of a named variant. */
  lemma PayloadIsNotChecked(variant: string, p: Pattern)
    ensures var ps, domain := [Ctor("Ok", [Wildcard]), Ctor("Err", [Ctor(variant, [p])])], Variants([variant]);
            Missing(ps, domain) == [] && (Exhaustive(ps, domain) <==> IsCatchAll(p))
  {
    var ps, domain := [Ctor("Ok", [Wildcard]), Ctor("Err", [Ctor(variant, [p])])], Variants([variant]);
    assert ps[0] in ps && ps[1] in ps;
    assert CoversOk(ps[0]) && CoversVariant(ps[1], variant);
    assert Uncovered(ps, [variant]) == Uncovered(ps, []) == [];
    assert Missing(ps, domain) == [];
    IrrefutableExactly(p);
    if IsCatchAll(p) {
      CheckIsExact(ps, domain);
    } else {
      var v :| !Fits(p, v);
      var e := Value.Err(ErrValue(variant, None, "", Some(v)));
      assert InDomain(e, domain);
      assert !Fits(ps[0], e);
      assert MatchErr(ps[1].args, e) == MatchPattern(p, v);
      assert !Fits(ps[1], e);
      assert !Matched(ps, e);
    }
  }

  /** `Ok` without an argument counts as covering success, although it never matches. */
  lemma BareOkNeverMatches(domain: ErrDomain)
    ensures var ps := [Ctor("Ok", []), Ctor("Err", [Binding("e")])];
            Missing(ps, domain) == [] && forall v :: !Matched(ps, Value.Ok(v))
  {
    var ps := [Ctor("Ok", []), Ctor("Err", [Binding("e")])];
    assert ps[0] in ps && ps[1] in ps;
    assert CoversOk(ps[0]) && CoversErr(ps[1]);
  }

  // ---------- what the report says ----------

  /** Some arm takes everything. */
  predicate TakesAll(ps: seq<Pattern>) { exists p :: p in ps && (p.Wildcard? || p.Binding?) }

  /** Some arm takes every error: `Err` bare, or of a catch-all. */
  predicate TakesEveryErr(ps: seq<Pattern>) {
    exists p :: p in ps && p.Ctor? && p.name == "Err"
                && (p.args == [] || p.args[0].Wildcard? || p.args[0].Binding?)
  }

  predicate TakesVariant(ps: seq<Pattern>, variant: string) {
    exists p :: p in ps && p.Ctor? && p.name == "Err" && p.args != [] && p.args[0].Ctor? && p.args[0].name == variant
  }

  /** The texts of the variants that no arm names, in the order of their declaration. */
  function Unnamed(ps: seq<Pattern>, variants: seq<string>): seq<string> {
    if variants == [] then []
    else
      var last := variants[|variants| - 1];
      Unnamed(ps, variants[..|variants| - 1]) + if TakesVariant(ps, last) then [] else ["Err(" + last + ")"]
  }

  lemma {:induction false} UncoveredIsUnnamed(ps: seq<Pattern>, variants: seq<string>)
    ensures Uncovered(ps, variants) == Unnamed(ps, variants)
  {
    if |variants| > 1 {
      UncoveredIsUnnamed(ps, variants[1..]);
      UncoveredIsUnnamed(ps, variants[..|variants| - 1]);
      UncoveredIsUnnamed(ps, variants[1..][..|variants| - 2]);
      assert variants[1..][..|variants| - 2] == variants[..|variants| - 1][1..];
      hide TakesVariant, Some1;
    }
  }

  /** The report reads `Ok(...)` when no arm takes a success, then the variants of a closed domain that no arm
      names, or `Err(e)` for an open one; nothing when some arm takes everything. */
  lemma ReportSays(ps: seq<Pattern>, domain: ErrDomain)
    ensures TakesAll(ps) ==> Missing(ps, domain) == []
    ensures !TakesAll(ps) ==>
              Missing(ps, domain)
              == (if exists p :: p in ps && p.Ctor? && p.name == "Ok" then [] else ["Ok(...)"])
                 + (if TakesEveryErr(ps) then []
                    else if domain.Open? then ["Err(e)"]
                    else Unnamed(ps, domain.variants))
  {
    hide Uncovered, Unnamed;
    if domain.Variants? { UncoveredIsUnnamed(ps, domain.variants); }
  }
}
